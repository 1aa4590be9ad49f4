/** The task that copies what the host sends to the child's stdin, as an object over the shared `Handle` and the shared
    `RxLocal`. */
module InputTasks {
  import opened Basics
  import opened Connection
  import opened Messages
  import opened TxSteps
  import RxSteps
  import opened Tx
  import opened Rx
  import opened AgentSteps
  import opened AgentPolls
  import opened Runs

  /** What the steps of the task work on. */
  datatype FeedState = FeedState(tx: Local, rx: RxSteps.Local, task: StdinTask, added: seq<Message>)

  datatype FeedEvent = FeedPoll

  function StepFeed(c: FeedState): FeedState {
    var s := PollStdin(c.tx, c.rx, c.task);
    FeedState(s.tx, s.rx, s.task, c.added + s.added)
  }

  /** What the task needs is not ready. */
  predicate FeedWaits(c: FeedState) {
    match c.task.phase
    case Receiving =>
      var p: RxSteps.PolledRecv<Option<Bytes>> := RxSteps.PollRecv(c.rx, StdinFilter(), Decode);
      p.answer.Pending?
    case Writing(rest) => Transmit(c.task.child, rest).outcome.Pending?
    case SendingStdinClosed(send) => Waits(c.tx, send)
    case StdinEnded(_) => false
  }

  function FeedMachine(): Machine<FeedState, FeedEvent> {
    Machine(
      (c: FeedState, e: FeedEvent) => StepFeed(c),
      (c: FeedState, e: FeedEvent) => FeedWaits(c),
      (e: FeedEvent) => false)
  }

  /** Where a poll of its future brings the task when it sends. */
  function AfterSend(p: PolledFuture): StdinPhase {
    match p.outcome
    case Ready(Ok(_)) => StdinEnded(true)
    case Ready(Err(_)) => StdinEnded(false)
    case Pending => SendingStdinClosed(p.future)
  }

  /** A poll of the future is one step of the task, or two. */
  lemma FeedSends(c: FeedState, f: SendFuture) returns (events: seq<FeedEvent>)
    requires c.task.phase == SendingStdinClosed(f) && |f.msgs| <= 1
    ensures var p := PollFuture(Open(c.tx), f);
            var c' := Run(FeedMachine().step, c, events);
            && p.tx == Open(c'.tx) && c'.rx == c.rx
            && c'.task == c.task.(phase := AfterSend(p))
            && (p.outcome.Pending? ==> Stuck(FeedMachine(), c, events))
            && |p.future.msgs| <= 1
  {
    OneMessagePoll(Open(c.tx), f);
    events := [FeedPoll];
    RunOne(FeedMachine().step, c, FeedPoll);
    var t := SendTurn(Open(c.tx), f);
    var mid := StepFeed(c);
    hide TxSteps.PollSend, TxSteps.PollFlush, PollFuture, Run, Added, Stuck, PollReceiving, PollWriting;
    if t.result.None? {
      events := [FeedPoll] + [FeedPoll];
      RunAppend(FeedMachine().step, c, [FeedPoll], [FeedPoll]);
      RunOne(FeedMachine().step, mid, FeedPoll);
      if FeedWaits(mid) {
        StuckNow(FeedMachine(), mid, FeedPoll);
        StuckLater(FeedMachine(), c, [FeedPoll], [FeedPoll]);
      }
    } else if FeedWaits(c) {
      StuckNow(FeedMachine(), c, FeedPoll);
    }
  }

  function Rank(phase: StdinPhase): nat {
    match phase
    case Writing(_) => 3
    case Receiving => 2
    case SendingStdinClosed(_) => 1
    case StdinEnded(_) => 0
  }

  /** The measure by which a poll of the task ends. */
  ghost predicate Precedes(c: FeedState, c': FeedState) {
    var log, log' := |RxSteps.Log(c.rx, Decode)|, |RxSteps.Log(c'.rx, Decode)|;
    log' < log || (log' == log && Rank(c'.task.phase) < Rank(c.task.phase))
  }

  /** A step that is not kept waiting comes nearer to the end, or has its message sent at least. */
  lemma FeedAdvances(c: FeedState)
    requires !c.task.phase.StdinEnded?
    ensures var c' := StepFeed(c);
            || FeedWaits(c) || Precedes(c, c')
            || (&& c.task.phase.SendingStdinClosed? && c'.task.phase.SendingStdinClosed? && c'.rx == c.rx
                && |c'.task.phase.send.msgs| < |c.task.phase.send.msgs|)
  {
    AgentFilters();
    hide RxSteps.PollRecv, RxSteps.Log, StdinFilter, Decode, Encode, Transmit, Disjoint, LockedSend, LockedFlush,
      Added, NewFuture;
    RecvShortens(c.rx, StdinFilter());
  }

  datatype FeedStage = Receives | Writes(rest: Bytes) | TellsClosed | Over(ok: bool)

  class StdinCopy {
    const child: Writer
    const tx: Handle
    const rx: RxLocal
    const send: DoSend
    var stage: FeedStage
    ghost var had: seq<Option<Bytes>>
    ghost var sent: seq<Message>

    ghost function Repr(): set<object> {
      {this, child, send}
    }

    ghost predicate Valid()
      reads this, Repr(), tx
    {
      && tx.local.Some? && child != tx.local.value.writer
      && rx.reader.decode == Decode
      && send.tx == tx
      && (stage.TellsClosed? ==> |send.msgs| <= 1)
    }

    ghost function Task(): StdinTask
      reads this, Repr()
    {
      var phase :=
        match stage
        case Receives => Receiving
        case Writes(rest) => Writing(rest)
        case TellsClosed => SendingStdinClosed(send.State())
        case Over(ok) => StdinEnded(ok);
      StdinTask(child.State(), had, phase)
    }

    ghost function State(): FeedState
      requires tx.local.Some?
      reads this, Repr(), tx, tx.Repr(), rx, rx.reader, rx.reader.reader, rx.msgs
    {
      FeedState(tx.State().local, rx.State(), Task(), sent)
    }

    /** `writes` is how the child's pipe answers. */
    constructor (writes: seq<WriteAnswer>, tx: Handle, rx: RxLocal)
      requires tx.local.Some? && rx.reader.decode == Decode
      ensures Valid() && fresh(Repr()) && allocated(Repr())
      ensures this.tx == tx && this.rx == rx && sent == []
      ensures Task() == StdinTask(Sink(writes, [], [], [], 0), [], Receiving)
    {
      this.tx, this.rx := tx, rx;
      child := new Writer(writes, [], []);
      send := new DoSend(tx, [], false);
      stage, had, sent := Receives, [], [];
    }

    method Receive() returns (ready: bool)
      requires Valid() && stage == Receives
      modifies this, send, rx.reader, rx.reader.reader, rx.msgs
      ensures Valid()
      ensures State() == StepFeed(old(State()))
      ensures ready == !FeedWaits(old(State()))
    {
      AgentFilters();
      hide RxSteps.PollRecv, StdinFilter, Decode, Encode, Disjoint, PollWriting, PollStdinClosed;
      var answer: Poll<Result<Option<Option<Bytes>>, Framing.RxError>> := rx.PollRecv(StdinFilter());
      had := had + RxSteps.ValueOf(answer);
      ready := answer.Ready?;
      match answer
      case Pending =>
      case Ready(Err(_)) => stage := Over(false);
      case Ready(Ok(Some(Some(data)))) => stage := Writes(data);
      case Ready(Ok(_)) =>
        send.Replace([Encode(Stdin(Closed))], true);
        stage := TellsClosed;
    }

    /** `write_all`, from poll to poll. */
    method WriteAll() returns (r: Outcome)
      requires Valid() && stage.Writes?
      modifies this, child
      ensures Valid()
      ensures State() == StepFeed(old(State()))
      ensures r.Pending? == FeedWaits(old(State()))
    {
      hide Decode, PollReceiving, PollStdinClosed;
      var rest := stage.rest;
      while rest != []
        invariant stage == old(stage) && had == old(had) && sent == old(sent)
        invariant Transmit(child.State(), rest) == old(Transmit(child.State(), stage.rest))
        decreases |rest|
      {
        var w := child.PollWrite(rest);
        match w {
          case Pending =>
            stage := Writes(rest);
            return Pending;
          case Ready(Err(e)) =>
            stage := Over(false);
            return Ready(Err(e));
          case Ready(Ok(n)) =>
            if n == 0 {
              stage := Over(false);
              return Ready(Err(ConnectionClosed));
            }
            rest := rest[n..];
        }
      }
      stage := Receives;
      r := DONE;
    }

    /** A poll of the message that ends the task. */
    method PollSend() returns (outcome: Outcome, ghost events: seq<FeedEvent>)
      requires Valid() && stage == TellsClosed
      modifies this, send, tx.Repr()
      ensures Valid() && tx.local == old(tx.local)
      ensures State() == Run(FeedMachine().step, old(State()), events)
      ensures if outcome.Pending? then Stuck(FeedMachine(), old(State()), events) else stage == Over(outcome.value.Ok?)
    {
      hide PollFuture, Run, Stuck, FeedMachine, Decode;
      ghost var before := State();
      events := FeedSends(before, send.State());
      ghost var after := Run(FeedMachine().step, before, events);
      hide PollStdin, SendTurn, RxSteps.PollRecv, Encode;
      outcome := send.Poll();
      assert rx.State() == after.rx && tx.State() == Open(after.tx) && child.State() == after.task.child;
      sent := after.added;
      if outcome.Ready? {
        stage := Over(outcome.value.Ok?);
      }
    }

    /** One receive, one attempt to write it all, or one poll of what is being sent. */
    method Turn() returns (moved: bool, ghost events: seq<FeedEvent>)
      requires Valid() && !stage.Over?
      modifies Repr(), tx.Repr(), rx.reader, rx.reader.reader, rx.msgs
      ensures Valid() && tx.local == old(tx.local)
      ensures State() == Run(FeedMachine().step, old(State()), events)
      ensures if moved then Precedes(old(State()), State()) else Stuck(FeedMachine(), old(State()), events)
    {
      hide StepFeed, FeedWaits, Run, Stuck, RxSteps.Log, Decode;
      ghost var before := State();
      if stage.TellsClosed? {
        var outcome;
        outcome, events := PollSend();
        return outcome.Ready?, events;
      }
      events := [FeedPoll];
      RunOne(FeedMachine().step, before, FeedPoll);
      FeedAdvances(before);
      if stage.Receives? {
        moved := Receive();
      } else {
        var written := WriteAll();
        moved := written.Ready?;
      }
      if !moved {
        StuckNow(FeedMachine(), before, FeedPoll);
      }
    }

    /** One poll of the task. */
    method Poll() returns (r: Poll<bool>, ghost events: seq<FeedEvent>)
      requires Valid()
      modifies Repr(), tx.Repr(), rx.reader, rx.reader.reader, rx.msgs
      ensures Valid() && tx.local == old(tx.local)
      ensures State() == Run(FeedMachine().step, old(State()), events)
      ensures match r
              case Ready(ok) => stage == Over(ok)
              case Pending => Stuck(FeedMachine(), old(State()), events)
    {
      hide FeedMachine, Stuck, Decode, RxSteps.Log;
      events := [];
      while !stage.Over?
        invariant Valid() && tx.local == old(tx.local)
        invariant State() == Run(FeedMachine().step, old(State()), events)
        decreases |RxSteps.Log(State().rx, Decode)|, Rank(State().task.phase)
      {
        var moved, more := Turn();
        RunAppend(FeedMachine().step, old(State()), events, more);
        if !moved {
          StuckLater(FeedMachine(), old(State()), events, more);
          return Pending, events + more;
        }
        events := events + more;
      }
      r := Ready(stage.ok);
    }
  }
}
