/** The tasks that copy the child's output, as objects over the shared `Handle` and the shared `RxLocal`. A poll of a task
    runs until what it waits for is not ready, and amounts to some steps of the state machine of `AgentSteps`. The order
    in which `select!` polls its branches, and what the operating system answers, are left open. */
module OutputTasks {
  import opened Basics
  import opened Connection
  import opened Source
  import opened Messages
  import opened LineReader
  import opened TxSteps
  import RxSteps
  import opened Tx
  import opened Rx
  import opened AgentSteps
  import opened Runs
  import opened AgentPolls

  /** What the steps of an output task work on. */
  datatype CopyState = CopyState(tx: Local, rx: RxSteps.Local, task: OutputTask, added: seq<Message>)

  datatype CopyEvent = CopyPoll | HostPoll(closes: bool)

  function StepCopy(c: CopyState, lineBuffered: bool, e: CopyEvent): CopyState {
    match e
    case CopyPoll =>
      var o := PollOutput(c.tx, c.task, lineBuffered);
      c.(tx := o.tx, task := o.task, added := c.added + o.added)
    case HostPoll(closes) =>
      var h := PollHostClose(c.rx, c.task, closes);
      c.(rx := h.rx, task := h.task)
  }

  /** What the task needs is not ready. */
  predicate CopyWaits(c: CopyState, lineBuffered: bool) {
    match c.task.phase
    case Copying => PollPiece(c.task.splitting, lineBuffered).piece.Pending?
    case SendingData(_, send) => Waits(c.tx, send)
    case SendingClosed(send) => Waits(c.tx, send)
    case CopyEnded(_) => false
  }

  /** Listening to the host does not end the wait for the child. */
  function CopyMachine(lineBuffered: bool): Machine<CopyState, CopyEvent> {
    Machine(
      (c: CopyState, e: CopyEvent) => StepCopy(c, lineBuffered, e),
      (c: CopyState, e: CopyEvent) => e == CopyPoll && CopyWaits(c, lineBuffered),
      (e: CopyEvent) => e.HostPoll?)
  }

  predicate Sends(phase: OutputPhase, f: SendFuture) {
    (phase.SendingData? || phase.SendingClosed?) && phase.send == f
  }

  /** Where a poll of its future brings a task that sends. */
  function AfterSend(phase: OutputPhase, p: PolledFuture): OutputPhase
    requires phase.SendingData? || phase.SendingClosed?
  {
    match (phase, p.outcome)
    case (SendingData(_, _), Ready(Ok(_))) => Copying
    case (SendingClosed(_), Ready(Ok(_))) => CopyEnded(true)
    case (_, Ready(_)) => CopyEnded(false)
    case (SendingData(data, _), _) => SendingData(data, p.future)
    case (_, _) => SendingClosed(p.future)
  }

  /** A poll of the future of a task that sends is one step of the task, or two. */
  lemma CopySends(c: CopyState, lineBuffered: bool, f: SendFuture) returns (events: seq<CopyEvent>)
    requires Sends(c.task.phase, f) && |f.msgs| <= 1
    ensures var p := PollFuture(Open(c.tx), f);
            var c' := Run(CopyMachine(lineBuffered).step, c, events);
            && p.tx == Open(c'.tx) && c'.rx == c.rx
            && c'.task == c.task.(phase := AfterSend(c.task.phase, p))
            && (p.outcome.Pending? ==> Stuck(CopyMachine(lineBuffered), c, events))
            && |p.future.msgs| <= 1
  {
    OneMessagePoll(Open(c.tx), f);
    events := [CopyPoll];
    RunOne(CopyMachine(lineBuffered).step, c, CopyPoll);
    var t := SendTurn(Open(c.tx), f);
    var mid := StepCopy(c, lineBuffered, CopyPoll);
    hide PollSend, PollFlush, PollFuture, Run, Added, Stuck;
    if t.result.None? {
      events := [CopyPoll] + [CopyPoll];
      RunAppend(CopyMachine(lineBuffered).step, c, [CopyPoll], [CopyPoll]);
      RunOne(CopyMachine(lineBuffered).step, mid, CopyPoll);
      if CopyWaits(mid, lineBuffered) {
        StuckNow(CopyMachine(lineBuffered), mid, CopyPoll);
        StuckLater(CopyMachine(lineBuffered), c, [CopyPoll], [CopyPoll]);
      }
    } else if CopyWaits(c, lineBuffered) {
      StuckNow(CopyMachine(lineBuffered), c, CopyPoll);
    }
  }

  /** Handing out a piece shortens what is ahead. */
  lemma CopyPollShortens(c: CopyState, lineBuffered: bool)
    requires c.task.phase == Copying
    ensures var task' := StepCopy(c, lineBuffered, CopyPoll).task;
            && |Ahead(task'.splitting)| <= |Ahead(c.task.splitting)|
            && (task'.phase.SendingData? ==> |Ahead(task'.splitting)| < |Ahead(c.task.splitting)|)
            && (task'.phase == Copying ==> CopyWaits(c, lineBuffered))
  {
    hide Ahead, Lines, PollPiece, PollHostClose, PollData, PollClosed, Encode, NewFuture, SendTurn;
    PieceLeads(c.task.splitting, lineBuffered);
    var p := PollPiece(c.task.splitting, lineBuffered);
    if PieceOf(p.piece) != [] {
      assert Concat(PieceOf(p.piece)) == PieceOf(p.piece)[0] + [];
    }
  }

  predicate HostHasClosed(c: CopyState) {
    RxSteps.PollRecv(c.rx, OutputFilter(c.task.stream), Decode).answer == Ready(Ok(Some(Closed)))
  }

  /** Taking a message of the host shortens the log. */
  lemma HostPollShortens(c: CopyState, lineBuffered: bool, closes: bool)
    requires c.task.phase == Copying
    ensures var rx' := StepCopy(c, lineBuffered, HostPoll(closes)).rx;
            && |RxSteps.Log(rx', Decode)| <= |RxSteps.Log(c.rx, Decode)|
            && (HostHasClosed(c) ==> |RxSteps.Log(rx', Decode)| < |RxSteps.Log(c.rx, Decode)|)
  {
    AgentFilters();
    hide RxSteps.PollRecv, RxSteps.Log, OutputFilter, Decode, PollOutput, Disjoint;
    RecvShortens(c.rx, OutputFilter(c.task.stream));
  }

  /** What is left to receive and to read gets no longer. */
  ghost predicate Keeps(c: CopyState, c': CopyState) {
    && |RxSteps.Log(c'.rx, Decode)| <= |RxSteps.Log(c.rx, Decode)|
    && |Ahead(c'.task.splitting)| <= |Ahead(c.task.splitting)|
  }

  /** What a branch of `select!` achieves. */
  ghost predicate Advances(c: CopyState, c': CopyState) {
    || |RxSteps.Log(c'.rx, Decode)| < |RxSteps.Log(c.rx, Decode)|
    || (&& Keeps(c, c') && c'.task.phase != Copying
        && (c'.task.phase.SendingData? ==> |Ahead(c'.task.splitting)| < |Ahead(c.task.splitting)|))
  }

  function Rank(phase: OutputPhase): nat {
    match phase
    case SendingData(_, _) => 3
    case Copying => 2
    case SendingClosed(_) => 1
    case CopyEnded(_) => 0
  }

  /** The measure by which a poll of the task ends. */
  ghost predicate Precedes(c: CopyState, c': CopyState) {
    || |RxSteps.Log(c'.rx, Decode)| < |RxSteps.Log(c.rx, Decode)|
    || (Keeps(c, c') && |Ahead(c'.task.splitting)| < |Ahead(c.task.splitting)|)
    || (Keeps(c, c') && Rank(c'.task.phase) < Rank(c.task.phase))
  }

  /** A turn of the future of a task that sends has used up its message, if nothing else. */
  predicate SendsOn(phase: OutputPhase, phase': OutputPhase) {
    match (phase, phase')
    case (SendingData(data, f), SendingData(data', f')) => data' == data && |f'.msgs| < |f.msgs|
    case (SendingClosed(f), SendingClosed(f')) => |f'.msgs| < |f.msgs|
    case _ => false
  }

  /** A step of an unfinished task that is not kept waiting brings it nearer to its end. */
  lemma CopyAdvances(c: CopyState, lineBuffered: bool)
    requires !c.task.phase.CopyEnded? && !CopyWaits(c, lineBuffered)
    ensures var c' := StepCopy(c, lineBuffered, CopyPoll);
            Precedes(c, c') || (Keeps(c, c') && SendsOn(c.task.phase, c'.task.phase))
  {
    hide PollPiece, RxSteps.Log, Decode, Encode, NewFuture, LockedSend, LockedFlush, PollHostClose, Ahead, Added;
    if c.task.phase == Copying {
      CopyPollShortens(c, lineBuffered);
    }
  }

  lemma KeepsAndAdvances(a: CopyState, b: CopyState, c: CopyState)
    requires Keeps(a, b)
    ensures Advances(b, c) ==> Advances(a, c)
  {
    hide RxSteps.Log, Ahead, Decode;
  }

  datatype CopyStage = Reads | SendsData(data: Bytes) | SendsClosed | Ended(ok: bool)

  datatype Branch = NotReady | Refused | Taken

  class CopyTask {
    const stream: Stream
    const output: OutputReader
    const tx: Handle
    const rx: RxLocal
    const send: DoSend
    ghost const start: Splitting
    var lineBuffered: bool
    var stage: CopyStage
    /** The answer to the pending `select!` has not matched, and is not asked for again. */
    var refused: bool
    ghost var sent: seq<Message>

    ghost function Repr(): set<object> {
      {this, output, output.source, send}
    }

    ghost predicate Valid()
      reads this, Repr(), tx
    {
      && tx.local.Some?
      && rx.reader.decode == Decode
      && output.source != rx.reader.reader
      && send.tx == tx
      && (stage.SendsData? || stage.SendsClosed? ==> |send.msgs| <= 1)
    }

    ghost function Phase(): OutputPhase
      reads this, Repr()
    {
      match stage
      case Reads => Copying
      case SendsData(data) => SendingData(data, send.State())
      case SendsClosed => SendingClosed(send.State())
      case Ended(ok) => CopyEnded(ok)
    }

    ghost function Task(): OutputTask
      reads this, Repr()
    {
      OutputTask(stream, start, output.State(), Phase())
    }

    ghost function State(): CopyState
      requires tx.local.Some?
      reads this, Repr(), tx, tx.Repr(), rx, rx.reader, rx.reader.reader, rx.msgs
    {
      CopyState(tx.State().local, rx.State(), Task(), sent)
    }

    /** `pipe` is what the child writes, and how it can be read. */
    constructor (stream: Stream, pipe: Source, tx: Handle, rx: RxLocal)
      requires tx.local.Some? && rx.reader.decode == Decode
      ensures Valid() && fresh(Repr()) && allocated(Repr())
      ensures this.stream == stream && this.tx == tx && this.rx == rx && lineBuffered && sent == []
      ensures Task() == NewOutput(stream, pipe)
    {
      this.stream, this.tx, this.rx := stream, tx, rx;
      var source := new Reader(pipe.unread, pipe.schedule);
      output := new OutputReader(source);
      send := new DoSend(tx, [], false);
      start := Splitting(pipe, []);
      lineBuffered, stage, refused, sent := true, Reads, false, [];
    }

    /** The branch that reads the child. */
    method PollRead() returns (ready: bool)
      requires Valid() && stage == Reads
      modifies this, output, output.source, send
      ensures Valid() && lineBuffered == old(lineBuffered)
      ensures State() == StepCopy(old(State()), lineBuffered, CopyPoll)
      ensures !ready ==> stage == Reads && CopyWaits(old(State()), lineBuffered)
      ensures ready ==> stage != Reads
    {
      hide PollPiece, Encode, Decode, PollData, PollClosed, PollHostClose, Added, SendTurn;
      var piece := output.ReadLineOrChunk(lineBuffered);
      match piece {
        case Pending => ready := false;
        case Ready(Err(_)) => ready, stage := true, Ended(false);
        case Ready(Ok(None)) =>
          send.Replace([Encode(OnStream(stream, Closed))], true);
          ready, stage := true, SendsClosed;
        case Ready(Ok(Some(data))) =>
          send.Replace([Encode(OnStream(stream, Data(data)))], false);
          ready, stage := true, SendsData(data);
      }
    }

    method Read() returns (ready: bool, ghost events: seq<CopyEvent>)
      requires Valid() && stage == Reads
      modifies this, output, output.source, send
      ensures Valid() && lineBuffered == old(lineBuffered)
      ensures State() == Run(CopyMachine(lineBuffered).step, old(State()), events)
      ensures !ready ==> stage == Reads && Stuck(CopyMachine(lineBuffered), old(State()), events)
      ensures Keeps(old(State()), State()) && (ready ==> Advances(old(State()), State()))
    {
      hide Ahead, RxSteps.Log, Decode, PollPiece, StepCopy, CopyWaits, Run, Stuck;
      ghost var before := State();
      CopyPollShortens(before, lineBuffered);
      ready := PollRead();
      refused := refused && !ready;
      events := [CopyPoll];
      RunOne(CopyMachine(lineBuffered).step, before, CopyPoll);
      if !ready {
        StuckNow(CopyMachine(lineBuffered), before, CopyPoll);
      }
    }

    /** The branch that listens to the host. */
    method PollHost() returns (branch: Branch, ghost closes: bool)
      requires Valid() && stage == Reads
      modifies this, rx.reader, rx.reader.reader, rx.msgs
      ensures Valid() && lineBuffered == old(lineBuffered)
      ensures State() == StepCopy(old(State()), lineBuffered, HostPoll(closes))
      ensures branch != Taken ==> stage == Reads
      ensures branch == Taken ==> HostHasClosed(old(State()))
    {
      AgentFilters();
      hide RxSteps.PollRecv, OutputFilter, Disjoint, Decode, PollOutput;
      var answer := rx.PollRecv(OutputFilter(stream));
      closes := true;
      if answer == Ready(Ok(Some(Closed))) {
        var closed: bool := *;
        closes, branch := closed, Taken;
        if !closed {
          stage := Ended(false);
        }
      } else {
        branch := if answer.Pending? then NotReady else Refused;
      }
    }

    /** The branch that listens to the host, unless it has been disabled. */
    method Listen() returns (taken: bool, ghost events: seq<CopyEvent>)
      requires Valid() && stage == Reads
      modifies this, rx.reader, rx.reader.reader, rx.msgs
      ensures Valid() && lineBuffered == old(lineBuffered)
      ensures State() == Run(CopyMachine(lineBuffered).step, old(State()), events)
      ensures forall j | 0 <= j < |events| :: events[j].HostPoll?
      ensures !taken ==> stage == Reads && Keeps(old(State()), State())
      ensures taken ==> Advances(old(State()), State())
    {
      hide Ahead, RxSteps.Log, Decode, StepCopy, HostHasClosed;
      if refused {
        return false, [];
      }
      ghost var before := State();
      var branch, closes := PollHost();
      HostPollShortens(before, lineBuffered, closes);
      events := [HostPoll(closes)];
      RunOne(CopyMachine(lineBuffered).step, before, HostPoll(closes));
      refused := branch == Refused;
      taken := branch == Taken;
    }

    /** One poll of `select!`, whose branches are polled in any order. */
    method Select() returns (taken: bool, ghost events: seq<CopyEvent>)
      requires Valid() && stage == Reads
      modifies this, output, output.source, send, rx.reader, rx.reader.reader, rx.msgs
      ensures Valid() && lineBuffered == old(lineBuffered)
      ensures State() == Run(CopyMachine(lineBuffered).step, old(State()), events)
      ensures !taken ==> stage == Reads && Stuck(CopyMachine(lineBuffered), old(State()), events)
      ensures taken ==> Advances(old(State()), State())
    {
      hide CopyMachine, Run, Advances, Stuck, Decode;
      var hostFirst: bool := *;
      if hostFirst {
        taken, events := ListenAndRead();
      } else {
        taken, events := ReadAndListen();
      }
    }

    method ListenAndRead() returns (taken: bool, ghost events: seq<CopyEvent>)
      requires Valid() && stage == Reads
      modifies this, output, output.source, send, rx.reader, rx.reader.reader, rx.msgs
      ensures Valid() && lineBuffered == old(lineBuffered)
      ensures State() == Run(CopyMachine(lineBuffered).step, old(State()), events)
      ensures !taken ==> stage == Reads && Stuck(CopyMachine(lineBuffered), old(State()), events)
      ensures taken ==> Advances(old(State()), State())
    {
      assert tx.local.Some?;
      hide *;
      ghost var before := State();
      taken, events := Listen();
      if !taken {
        ghost var mid, more := State(), [];
        assert mid == Run(CopyMachine(lineBuffered).step, before, events);
        taken, more := Read();
        RunAppend(CopyMachine(lineBuffered).step, before, events, more);
        KeepsAndAdvances(before, mid, State());
        if !taken {
          StuckLater(CopyMachine(lineBuffered), before, events, more);
        }
        events := events + more;
      }
    }

    method ReadAndListen() returns (taken: bool, ghost events: seq<CopyEvent>)
      requires Valid() && stage == Reads
      modifies this, output, output.source, send, rx.reader, rx.reader.reader, rx.msgs
      ensures Valid() && lineBuffered == old(lineBuffered)
      ensures State() == Run(CopyMachine(lineBuffered).step, old(State()), events)
      ensures !taken ==> stage == Reads && Stuck(CopyMachine(lineBuffered), old(State()), events)
      ensures taken ==> Advances(old(State()), State())
    {
      assert tx.local.Some?;
      hide *;
      taken, events := Read();
      if !taken {
        ghost var mid, more := State(), [];
        taken, more := Listen();
        StaysStuck(CopyMachine(lineBuffered), old(State()), events, more);
        RunAppend(CopyMachine(lineBuffered).step, old(State()), events, more);
        KeepsAndAdvances(old(State()), mid, State());
        events := events + more;
      }
    }

    /** A poll of the message that is being sent. */
    method PollSend() returns (sent: Outcome, ghost events: seq<CopyEvent>)
      requires Valid() && (stage.SendsData? || stage.SendsClosed?)
      modifies this, send, tx.Repr()
      ensures Valid() && lineBuffered == old(lineBuffered) && tx.local == old(tx.local)
      ensures State() == Run(CopyMachine(lineBuffered).step, old(State()), events)
      ensures sent.Pending? ==> stage == old(stage) && Stuck(CopyMachine(lineBuffered), old(State()), events)
      ensures sent.Ready? ==>
                stage == if sent.value.Err? then Ended(false) else if old(stage).SendsClosed? then Ended(true) else Reads
    {
      hide PollFuture, Run, Stuck, CopyMachine, Decode;
      ghost var before := State();
      events := CopySends(before, lineBuffered, send.State());
      ghost var after := Run(CopyMachine(lineBuffered).step, before, events);
      hide PollOutput, SendTurn, RxSteps.PollRecv, Encode, PollPiece;
      sent := send.Poll();
      assert rx.State() == after.rx && tx.State() == Open(after.tx) && output.State() == after.task.splitting;
      this.sent := after.added;
      if sent.Ready? {
        stage := if sent.value.Err? then Ended(false) else if stage.SendsClosed? then Ended(true) else Reads;
      }
    }

    /** One branch of `select!`, or one poll of what is being sent. */
    method Turn() returns (moved: bool, ghost events: seq<CopyEvent>)
      requires Valid() && !stage.Ended?
      modifies Repr(), tx.Repr(), rx.reader, rx.reader.reader, rx.msgs
      ensures Valid() && lineBuffered == old(lineBuffered) && tx.local == old(tx.local)
      ensures State() == Run(CopyMachine(lineBuffered).step, old(State()), events)
      ensures !moved ==> Stuck(CopyMachine(lineBuffered), old(State()), events)
      ensures moved ==> Precedes(old(State()), State())
    {
      hide CopyMachine, Run, Stuck, Decode, RxSteps.Log, Ahead;
      if stage.Reads? {
        moved, events := Select();
      } else {
        var sent;
        sent, events := PollSend();
        moved := sent.Ready?;
      }
    }

    /** One poll of the task. */
    method Poll() returns (r: Poll<bool>, ghost events: seq<CopyEvent>)
      requires Valid()
      modifies Repr(), tx.Repr(), rx.reader, rx.reader.reader, rx.msgs
      ensures Valid() && lineBuffered == old(lineBuffered) && tx.local == old(tx.local)
      ensures State() == Run(CopyMachine(lineBuffered).step, old(State()), events)
      ensures match r
              case Ready(ok) => stage == Ended(ok)
              case Pending => Stuck(CopyMachine(lineBuffered), old(State()), events)
    {
      hide CopyMachine, Stuck, Decode, RxSteps.Log, Ahead;
      events := [];
      while !stage.Ended?
        invariant Valid()
        invariant lineBuffered == old(lineBuffered) && tx.local == old(tx.local)
        invariant State() == Run(CopyMachine(lineBuffered).step, old(State()), events)
        decreases |RxSteps.Log(State().rx, Decode)|, |Ahead(State().task.splitting)|, Rank(State().task.phase)
      {
        var moved, more := Turn();
        RunAppend(CopyMachine(lineBuffered).step, old(State()), events, more);
        if !moved {
          StuckLater(CopyMachine(lineBuffered), old(State()), events, more);
          return Pending, events + more;
        }
        events := events + more;
      }
      r := Ready(stage.ok);
    }
  }
}
