/** Why futures fail and what a close has lost, over whole runs of any senders. */
module SenderOutcomes {
  import opened Scripts
  import opened Connection
  import opened TxSteps
  import opened TxOutcomes
  import opened Senders

  /** One turn on an open handle fails exactly if the connection fails in it. A future that neither fails nor goes on to its
      next message has found a mebibyte or more left; one that waits without a message left is flushing. */
  lemma TurnFails(s: System, i: nat)
    requires CanRun(s, i) && s.phase.NotTaken?
    ensures var s' := StepSender(s, i);
            var d, d' := s.senders[i].future, s'.senders[i].future;
            && (s'.senders[i].status == Failed <==> !Clean(s.local.sink, s'.local.sink))
            && (s'.senders[i].status == Running && |d'.msgs| == |d.msgs| ==>
                  if d.msgs != [] then |s'.local.transmitting| >= 1048576 else d.flush)
  {
    hide PollSend, PollFlush, Clean, SinkRemains;
    TurnOutcome(s.local, s.senders[i].future);
  }

  // ---------------------------------------------------------------------------------------------------------------
  // Over whole runs
  // ---------------------------------------------------------------------------------------------------------------

  /** What a run that began with the sink `start` has made of its answers. */
  ghost predicate Explained(start: Sink, s: System) {
    && SinkRemains(start, s.local.sink)
    && (s.phase.NotTaken? ==> s.local.sink.shutdowns == start.shutdowns)
    && (s.phase.Taken? ==>
          && ShutdownSays(s.phase.stage, Used(start.shutdowns, s.local.sink.shutdowns))
          && (s.phase.stage != Draining && s.phase.stage.lost ==> AnyFatal(Used(start.writes, s.local.sink.writes))))
    && (forall i | 0 <= i < |s.senders| ::
          s.senders[i].status == Failed ==> s.phase.Taken? || !Clean(start, s.local.sink))
  }

  lemma ShutdownSaysLater(stage: CloseStage, stage': CloseStage, u: seq<FlushAnswer>, v: seq<FlushAnswer>)
    requires !stage.Returned? && ShutdownSays(stage, u) && ShutdownSays(stage', v)
    requires stage != Draining ==> stage' != Draining
    ensures ShutdownSays(stage', u + v)
  {
  }

  lemma FatalLater(a: seq<WriteAnswer>, b: seq<WriteAnswer>, c: seq<WriteAnswer>)
    requires Remains(a, b) && Remains(b, c)
    ensures AnyFatal(Used(a, c)) <==> AnyFatal(Used(a, b)) || AnyFatal(Used(b, c))
  {
    UsedAppend(a, b, c);
    hide Used, Remains, IsFatal;
    var u, v := Used(a, b), Used(b, c);
    assert forall w :: w in u + v <==> w in u || w in v;
  }

  lemma TurnExplained(start: Sink, s: System, i: nat)
    requires Explained(start, s) && CanRun(s, i)
    ensures Explained(start, StepSender(s, i))
  {
    hide SendTurn, Clean, SinkRemains, AnyFatal, Used, ShutdownSays;
    if s.phase.NotTaken? {
      TurnOutcome(s.local, s.senders[i].future);
      CleanAppend(start, s.local.sink, StepSender(s, i).local.sink);
      TurnFails(s, i);
    } else {
      ClosedTurn(s, i);
    }
  }

  lemma CloserExplained(start: Sink, s: System)
    requires Explained(start, s) && s.phase.Taken?
    ensures Explained(start, Step(s, CloserPoll))
  {
    hide PollClose, Clean, AnyFatal, Used, Remains, ShutdownSays;
    var stage := s.phase.stage;
    CloseOutcome(s.local, stage);
    var c := PollClose(s.local, stage);
    CleanAppend(start, s.local.sink, c.local.sink);
    FatalLater(start.writes, s.local.sink.writes, c.local.sink.writes);
    UsedAppend(start.shutdowns, s.local.sink.shutdowns, c.local.sink.shutdowns);
    if !stage.Returned? {
      ShutdownSaysLater(stage, c.stage, Used(start.shutdowns, s.local.sink.shutdowns),
                        Used(s.local.sink.shutdowns, c.local.sink.shutdowns));
    }
  }

  lemma StepExplained(start: Sink, s: System, e: Event)
    requires Explained(start, s)
    ensures Explained(start, Step(s, e))
  {
    match e
    case SenderTurn(i) => if CanRun(s, i) { TurnExplained(start, s, i); }
    case CloserPoll => if s.phase.Taken? { CloserExplained(start, s); }
    case Take => UsedNothing(start.shutdowns);
    case _ =>
  }

  lemma {:induction false} RunExplained(start: Sink, s: System, events: seq<Event>)
    requires Explained(start, s)
    ensures Explained(start, Run(s, events))
    decreases events
  {
    if events != [] {
      hide Explained, Step;
      StepExplained(start, s, events[0]);
      RunExplained(start, Step(s, events[0]), events[1..]);
    }
  }

  lemma InitExplained(writes: seq<WriteAnswer>, flushes: seq<FlushAnswer>, shutdowns: seq<FlushAnswer>)
    ensures var s := Init(writes, flushes, shutdowns);
            Explained(s.local.sink, s)
  {
    CleanSame(Init(writes, flushes, shutdowns).local.sink);
  }

  /** A future fails only on a handle that was closed, or on a connection that has failed; so on one that never does none
      fails before the close. */
  lemma FailuresHaveCauses(
    writes: seq<WriteAnswer>, flushes: seq<FlushAnswer>, shutdowns: seq<FlushAnswer>, events: seq<Event>, i: nat)
    requires i < |Run(Init(writes, flushes, shutdowns), events).senders|
    ensures var s0 := Init(writes, flushes, shutdowns);
            var s := Run(s0, events);
            && SinkRemains(s0.local.sink, s.local.sink)
            && (s.senders[i].status == Failed ==> s.phase.Taken? || !Clean(s0.local.sink, s.local.sink))
  {
    hide Run, Clean, SinkRemains;
    InitExplained(writes, flushes, shutdowns);
    RunExplained(Init(writes, flushes, shutdowns).local.sink, Init(writes, flushes, shutdowns), events);
  }

  /** A close has lost bytes only if a write failed or wrote nothing; and it returns what the shutdown of the connection has
      answered. */
  lemma CloseReturns(
    writes: seq<WriteAnswer>, flushes: seq<FlushAnswer>, shutdowns: seq<FlushAnswer>, events: seq<Event>)
    requires Run(Init(writes, flushes, shutdowns), events).phase.Taken?
    ensures var s := Run(Init(writes, flushes, shutdowns), events);
            var asked := Used(shutdowns, s.local.sink.shutdowns);
            && (s.phase.stage != Draining && s.phase.stage.lost ==> AnyFatal(Used(writes, s.local.sink.writes)))
            && (s.phase.stage.Returned? ==>
                  && LastShutdown(asked) != FlushNotReady
                  && (s.phase.stage.ok <==> LastShutdown(asked) == Completes))
  {
    hide Run, Clean, AnyFatal, Used;
    InitExplained(writes, flushes, shutdowns);
    RunExplained(Init(writes, flushes, shutdowns).local.sink, Init(writes, flushes, shutdowns), events);
  }

  /** On a connection that never fails a write, however often it is not ready, a close that is done with draining has
      written every frame that was ever accepted. */
  lemma HealthyCloseIsComplete(
    writes: seq<WriteAnswer>, flushes: seq<FlushAnswer>, shutdowns: seq<FlushAnswer>, events: seq<Event>)
    requires !AnyFatal(writes)
    requires var s := Run(Init(writes, flushes, shutdowns), events); s.phase.Taken? && s.phase.stage != Draining
    ensures var s := Run(Init(writes, flushes, shutdowns), events);
            !s.phase.stage.lost && s.local.sink.written == Wire(s.local.accepted)
  {
    var s := Run(Init(writes, flushes, shutdowns), events);
    RunKeeps(Init(writes, flushes, shutdowns), events);
    CloseReturns(writes, flushes, shutdowns, events);
    NoFatalUsed(writes, s.local.sink.writes);
    hide Run, Wire;
  }

  lemma NoFatalUsed(before: seq<WriteAnswer>, after: seq<WriteAnswer>)
    requires !AnyFatal(before)
    ensures !AnyFatal(Used(before, after))
  {
  }
}
