/** Any number of `DoSend` futures over one handle, which may be dropped at any time, beside one call of `close`. Every
    locked call is one step, and the steps come in any order. */
module Senders {
  import opened Basics
  import opened Connection
  import opened TxSteps

  datatype Status = Running | Completed | Failed | Dropped

  /** A future, and the bodies it was made for. */
  datatype Sender = Sender(bodies: seq<Bytes>, future: SendFuture, status: Status)

  datatype Phase = NotTaken | Taken(stage: CloseStage)

  /** `owners[k]` is the sender of the `k`-th accepted body. Once the state is taken, only the closer sees `local`. */
  datatype System = System(local: Local, phase: Phase, senders: seq<Sender>, owners: seq<nat>)

  datatype Event =
    | Spawn(bodies: seq<Bytes>, flush: bool)
    | SenderTurn(i: nat)
    | Drop(i: nat)
    | Take
    | CloserPoll

  function Init(writes: seq<WriteAnswer>, flushes: seq<FlushAnswer>, shutdowns: seq<FlushAnswer>): System {
    System(Local(Sink(writes, flushes, shutdowns, [], 0), [], [], 0), NotTaken, [], [])
  }

  function View(s: System): Shared {
    if s.phase.NotTaken? then Open(s.local) else Shut
  }

  function StatusAfter(result: Option<Outcome>): Status {
    match result
    case Some(Ready(Ok(_))) => Completed
    case Some(Ready(Err(_))) => Failed
    case _ => Running
  }

  predicate CanRun(s: System, i: nat) {
    i < |s.senders| && s.senders[i].status == Running
  }

  function StepSender(s: System, i: nat): System
    requires CanRun(s, i)
  {
    var t := SendTurn(View(s), s.senders[i].future);
    var local := if t.tx.Open? then t.tx.local else s.local;
    System(
      local, s.phase,
      s.senders[i := s.senders[i].(future := t.future, status := StatusAfter(t.result))],
      if |local.accepted| > |s.local.accepted| then s.owners + [i] else s.owners)
  }

  function Step(s: System, e: Event): System {
    match e
    case Spawn(bodies, flush) => s.(senders := s.senders + [Sender(bodies, NewFuture(bodies, flush), Running)])
    case SenderTurn(i) => if CanRun(s, i) then StepSender(s, i) else s
    case Drop(i) => if CanRun(s, i) then s.(senders := s.senders[i := s.senders[i].(status := Dropped)]) else s
    case Take => if s.phase.NotTaken? then s.(phase := Taken(Draining)) else s
    case CloserPoll =>
      if s.phase.NotTaken? then s
      else
        var c := PollClose(s.local, s.phase.stage);
        s.(local := c.local, phase := Taken(c.stage))
  }

  function Run(s: System, events: seq<Event>): System
    decreases events
  {
    if events == [] then s else Run(Step(s, events[0]), events[1..])
  }

  // ---------------------------------------------------------------------------------------------------------------
  // The invariant
  // ---------------------------------------------------------------------------------------------------------------

  /** The accepted bodies of one sender, in the order of acceptance. */
  function Of(owners: seq<nat>, accepted: seq<Bytes>, i: nat): seq<Bytes>
    requires |owners| == |accepted|
  {
    if owners == [] then []
    else
      var n := |owners| - 1;
      Of(owners[..n], accepted[..n], i) + if owners[n] == i then [accepted[n]] else []
  }

  /** The messages that are left: the bodies from some point on, of which the first may have been taken. */
  ghost predicate Remaining(s: Sender) {
    var msgs := s.future.msgs;
    && |msgs| <= |s.bodies|
    && (forall j | 0 <= j < |msgs| ::
          msgs[j].body == Some(s.bodies[|s.bodies| - |msgs| + j]) || (j == 0 && msgs[j].body.None?))
  }

  function TakenCount(s: Sender): nat
    requires Remaining(s)
  {
    |s.bodies| - |s.future.msgs| + if s.future.msgs != [] && s.future.msgs[0].body.None? then 1 else 0
  }

  ghost predicate ExactlyOnce(s: System) {
    && |s.owners| == |s.local.accepted|
    && (forall k | 0 <= k < |s.owners| :: s.owners[k] < |s.senders|)
    && (forall i | 0 <= i < |s.senders| ::
          && Remaining(s.senders[i])
          && Of(s.owners, s.local.accepted, i) == s.senders[i].bodies[..TakenCount(s.senders[i])]
          && (s.senders[i].status == Completed ==> s.senders[i].future.msgs == []))
  }

  ghost predicate Inv(s: System) {
    && Ledger(s.local)
    && ExactlyOnce(s)
    && (s.phase.Taken? && s.phase.stage != Draining && !s.phase.stage.lost ==> s.local.transmitting == [])
  }

  lemma OfSnoc(owners: seq<nat>, accepted: seq<Bytes>, owner: nat, body: Bytes, i: nat)
    requires |owners| == |accepted|
    ensures Of(owners + [owner], accepted + [body], i)
         == Of(owners, accepted, i) + if owner == i then [body] else []
  {
    assert (owners + [owner])[..|owners|] == owners;
    assert (accepted + [body])[..|owners|] == accepted;
  }

  lemma {:induction false} OfStranger(owners: seq<nat>, accepted: seq<Bytes>, i: nat)
    requires |owners| == |accepted|
    requires forall k | 0 <= k < |owners| :: owners[k] != i
    ensures Of(owners, accepted, i) == []
  {
    if owners != [] {
      OfStranger(owners[..|owners| - 1], accepted[..|owners| - 1], i);
    }
  }

  lemma SpawnKeeps(s: System, bodies: seq<Bytes>, flush: bool)
    requires Inv(s)
    ensures Inv(Step(s, Spawn(bodies, flush)))
  {
    OfStranger(s.owners, s.local.accepted, |s.senders|);
  }

  lemma NextBody(bodies: seq<Bytes>, n: nat)
    requires n < |bodies|
    ensures bodies[n..n] == [] && bodies[n + 1..n + 1] == [] && bodies[n..n + 1] == [bodies[n]]
  {
  }

  /** One turn of a future: either nothing is accepted and as many messages stay untaken, or the next one is. */
  lemma TurnAccepts(tx: Shared, s: Sender)
    requires Remaining(s)
    requires tx.Open? ==> Ledger(tx.local)
    ensures var t := SendTurn(tx, s.future);
            var s' := s.(future := t.future);
            && Remaining(s')
            && t.tx.Open? == tx.Open?
            && (tx.Open? ==> Extends(tx.local, t.tx.local))
            && TakenCount(s) <= TakenCount(s') <= TakenCount(s) + 1
            && (tx.Shut? ==> TakenCount(s') == TakenCount(s))
            && (tx.Open? ==> t.tx.local.accepted == tx.local.accepted + s.bodies[TakenCount(s)..TakenCount(s')])
            && (t.result == Some(DONE) ==> s'.future.msgs == [])
  {
    hide PollSend, PollFlush, Ledger;
    var t := SendTurn(tx, s.future);
    if tx.Open? {
      var a := tx.local.accepted;
      assert a + [] == a;
      if s.future.msgs != [] {
        SendKeeps(tx.local, s.future.msgs[0]);
        NextBody(s.bodies, |s.bodies| - |s.future.msgs|);
      } else if s.future.flush {
        FlushDelivers(tx.local);
      }
    }
  }

  lemma OutcomeOk(result: Option<Outcome>)
    requires StatusAfter(result) == Completed
    ensures result == Some(DONE)
  {
    assert result.value.value.value == ();
  }

  lemma StepSenderKeeps(s: System, i: nat)
    requires Inv(s) && CanRun(s, i)
    ensures Inv(StepSender(s, i))
    ensures Extends(s.local, StepSender(s, i).local)
  {
    var t := SendTurn(View(s), s.senders[i].future);
    TurnAccepts(View(s), s.senders[i]);
    if StatusAfter(t.result) == Completed {
      OutcomeOk(t.result);
    }
    hide SendTurn, Ledger, Wire;
    var sender := s.senders[i].(future := t.future, status := StatusAfter(t.result));
    var local := if t.tx.Open? then t.tx.local else s.local;
    var a, b := TakenCount(s.senders[i]), TakenCount(sender);
    assert s.senders[i].bodies[a..a] == [] && s.local.accepted + [] == s.local.accepted;
    assert local.accepted == s.local.accepted + sender.bodies[a..b];
    OwnersKeep(s, i, sender, local);
  }

  /** The bookkeeping of one turn of sender `i`. */
  lemma OwnersKeep(s: System, i: nat, sender: Sender, local: Local)
    requires ExactlyOnce(s) && i < |s.senders|
    requires Remaining(sender) && sender.bodies == s.senders[i].bodies
    requires var a, b := TakenCount(s.senders[i]), TakenCount(sender);
             a <= b <= a + 1 && local.accepted == s.local.accepted + sender.bodies[a..b]
    requires sender.status == Completed ==> sender.future.msgs == []
    ensures ExactlyOnce(System(local, s.phase, s.senders[i := sender],
                               if |local.accepted| > |s.local.accepted| then s.owners + [i] else s.owners))
  {
    var a, b := TakenCount(s.senders[i]), TakenCount(sender);
    if a < b {
      assert sender.bodies[a..b] == [sender.bodies[a]];
      forall j | 0 <= j < |s.senders|
        ensures Of(s.owners + [i], local.accepted, j)
             == Of(s.owners, s.local.accepted, j) + if i == j then [sender.bodies[a]] else []
      {
        OfSnoc(s.owners, s.local.accepted, i, sender.bodies[a], j);
      }
      assert sender.bodies[..b] == sender.bodies[..a] + [sender.bodies[a]];
    } else {
      assert local.accepted == s.local.accepted;
    }
  }

  lemma StepKeeps(s: System, e: Event)
    requires Inv(s)
    ensures Inv(Step(s, e))
    ensures Extends(s.local, Step(s, e).local)
  {
    hide PollClose, StepSender, Wire, Of, NewFuture;
    match e
    case Spawn(bodies, flush) => SpawnKeeps(s, bodies, flush);
    case SenderTurn(i) => if CanRun(s, i) { StepSenderKeeps(s, i); }
    case Drop(i) =>
      if CanRun(s, i) {
        var s' := Step(s, e);
        assert forall j | 0 <= j < |s.senders| ::
            s'.senders[j].future == s.senders[j].future && s'.senders[j].bodies == s.senders[j].bodies;
      }
    case Take =>
    case CloserPoll => if s.phase.Taken? { CloseKeeps(s.local, s.phase.stage); }
  }

  lemma {:induction false} RunKeeps(s: System, events: seq<Event>)
    requires Inv(s)
    ensures Inv(Run(s, events))
    ensures Extends(s.local, Run(s, events).local)
    decreases events
  {
    if events != [] {
      StepKeeps(s, events[0]);
      RunKeeps(Step(s, events[0]), events[1..]);
    }
  }

  // ---------------------------------------------------------------------------------------------------------------
  // Over whole runs
  // ---------------------------------------------------------------------------------------------------------------

  /** After any run, pending and failed calls and dropped futures included: the connection has received a prefix of the
      wire form of what was accepted, and the buffer holds the rest of it; each sender has had exactly a prefix of its
      messages accepted, in order, and all of them if its future completed. */
  lemma SendLedger(
    writes: seq<WriteAnswer>, flushes: seq<FlushAnswer>, shutdowns: seq<FlushAnswer>, events: seq<Event>)
    ensures var s := Run(Init(writes, flushes, shutdowns), events);
            && s.local.sink.written + s.local.transmitting == Wire(s.local.accepted)
            && |s.owners| == |s.local.accepted|
            && (forall k | 0 <= k < |s.owners| :: s.owners[k] < |s.senders|)
            && (forall i | 0 <= i < |s.senders| ::
                  && Of(s.owners, s.local.accepted, i) <= s.senders[i].bodies
                  && (s.senders[i].status == Completed ==>
                        Of(s.owners, s.local.accepted, i) == s.senders[i].bodies))
  {
    RunKeeps(Init(writes, flushes, shutdowns), events);
  }

  ghost predicate BodiesUpTo(bodies: seq<Bytes>, limit: nat) {
    forall b <- bodies :: |b| <= limit
  }

  ghost predicate Bounded(s: System, limit: nat) {
    && |s.local.transmitting| <= PUSHBACK + limit
    && forall i | 0 <= i < |s.senders| :: BodiesUpTo(s.senders[i].bodies, limit)
  }

  lemma SenderStaysBounded(s: System, i: nat, limit: nat)
    requires Inv(s) && Bounded(s, limit) && CanRun(s, i)
    ensures Bounded(StepSender(s, i), limit)
  {
    var d := s.senders[i].future;
    if s.phase.NotTaken? {
      if d.msgs != [] {
        SendKeeps(s.local, d.msgs[0]);
        assert d.msgs[0].body.Some? ==> d.msgs[0].body.value in s.senders[i].bodies;
      } else if d.flush {
        FlushDelivers(s.local);
      }
    }
  }

  lemma StepStaysBounded(s: System, e: Event, limit: nat)
    requires Inv(s) && Bounded(s, limit)
    requires e.Spawn? ==> BodiesUpTo(e.bodies, limit)
    ensures Bounded(Step(s, e), limit)
  {
    match e
    case SenderTurn(i) => if CanRun(s, i) { SenderStaysBounded(s, i, limit); }
    case CloserPoll => if s.phase.Taken? { CloseKeeps(s.local, s.phase.stage); }
    case _ =>
  }

  lemma {:induction false} RunStaysBounded(s: System, events: seq<Event>, limit: nat)
    requires Inv(s) && Bounded(s, limit)
    requires forall e <- events :: e.Spawn? ==> BodiesUpTo(e.bodies, limit)
    ensures Bounded(Run(s, events), limit)
    decreases events
  {
    if events != [] {
      hide Inv, Step;
      assert events[0] in events;
      StepKeeps(s, events[0]);
      StepStaysBounded(s, events[0], limit);
      RunStaysBounded(Step(s, events[0]), events[1..], limit);
    }
  }

  /** The buffer never exceeds the pushback limit by more than one body, however many futures are sending. */
  lemma BufferIsBounded(
    writes: seq<WriteAnswer>, flushes: seq<FlushAnswer>, shutdowns: seq<FlushAnswer>, events: seq<Event>, limit: nat)
    requires forall e <- events :: e.Spawn? ==> BodiesUpTo(e.bodies, limit)
    ensures |Run(Init(writes, flushes, shutdowns), events).local.transmitting| <= PUSHBACK + limit
  {
    RunStaysBounded(Init(writes, flushes, shutdowns), events, limit);
  }

  /** A flushing future that completes has its messages, and everything else accepted by then, on the connection and
      flushed; and so it stays, whatever follows. */
  lemma FlushMeansDelivered(s: System, i: nat, later: seq<Event>)
    requires Inv(s) && CanRun(s, i) && s.senders[i].future.flush
    requires StepSender(s, i).senders[i].status == Completed
    ensures var s1 := StepSender(s, i);
            var s2 := Run(s1, later);
            && s1.local.sink.written == Wire(s1.local.accepted)
            && s1.local.sink.flushed == |s1.local.sink.written|
            && Of(s1.owners, s1.local.accepted, i) == s1.senders[i].bodies
            && s1.local.accepted <= s2.local.accepted
            && Wire(s1.local.accepted) <= s2.local.sink.written
            && |Wire(s1.local.accepted)| <= s2.local.sink.flushed
  {
    var s1 := StepSender(s, i);
    var d := s.senders[i].future;
    StepSenderKeeps(s, i);
    OutcomeOk(SendTurn(View(s), d).result);
    FlushDelivers(s.local);
    RunKeeps(s1, later);
  }

  // ---------------------------------------------------------------------------------------------------------------
  // Closing
  // ---------------------------------------------------------------------------------------------------------------

  /** A turn after the state was taken touches nothing, and fails exactly when there is something to send or to flush;
      an empty send without a flush still succeeds. */
  lemma ClosedTurn(s: System, i: nat)
    requires s.phase.Taken? && CanRun(s, i)
    ensures StepSender(s, i).local == s.local && StepSender(s, i).owners == s.owners
    ensures StepSender(s, i).senders[i].status == Failed
       <==> s.senders[i].future.msgs != [] || s.senders[i].future.flush
    ensures StepSender(s, i).senders[i].status in {Failed, Completed}
  {
  }

  /** Once taken, the state is never put back, and nobody appends to it. */
  lemma {:induction false} ClosingIsAbsorbing(s: System, events: seq<Event>)
    requires s.phase.Taken?
    ensures Run(s, events).phase.Taken?
    ensures Run(s, events).local.accepted == s.local.accepted
    ensures (forall e <- events :: !e.CloserPoll?) ==> Run(s, events).local == s.local
    decreases events
  {
    if events != [] {
      var e := events[0];
      assert e in events;
      if e.SenderTurn? && CanRun(s, e.i) {
        ClosedTurn(s, e.i);
      }
      assert Step(s, e).local.accepted == s.local.accepted;
      ClosingIsAbsorbing(Step(s, e), events[1..]);
    }
  }

  /** A close that returned, and met no write that returned zero or an error, has written every frame that was ever
      accepted, whoever sent it and whether before or after the flush that `close` begins with. */
  lemma ClosingIsComplete(
    writes: seq<WriteAnswer>, flushes: seq<FlushAnswer>, shutdowns: seq<FlushAnswer>, events: seq<Event>)
    requires var s := Run(Init(writes, flushes, shutdowns), events);
             s.phase.Taken? && s.phase.stage.Returned? && !s.phase.stage.lost
    ensures var s := Run(Init(writes, flushes, shutdowns), events);
            s.local.sink.written == Wire(s.local.accepted)
  {
    RunKeeps(Init(writes, flushes, shutdowns), events);
  }

  // ---------------------------------------------------------------------------------------------------------------
  // A poll is a run of turns
  // ---------------------------------------------------------------------------------------------------------------

  /** What a poll of a future does on its own is what some number of uninterrupted turns of it do, so the runs above
      include all those in which whole polls are interleaved. */
  lemma {:induction false} PollIsTurns(s: System, i: nat) returns (n: nat)
    requires CanRun(s, i)
    ensures var p := PollFuture(View(s), s.senders[i].future);
            var s' := Run(s, seq(n, _ => SenderTurn(i)));
            && View(s') == p.tx && i < |s'.senders| && s'.senders[i].future == p.future
            && s'.senders[i].status == StatusAfter(Some(p.outcome))
    decreases |s.senders[i].future.msgs|
  {
    var t := SendTurn(View(s), s.senders[i].future);
    var s1 := StepSender(s, i);
    assert View(s1) == t.tx;
    var turns := seq(1, _ => SenderTurn(i));
    assert turns == [SenderTurn(i)] && turns[1..] == [];
    assert Run(s, turns) == s1;
    if t.result.Some? {
      n := 1;
    } else {
      var m := PollIsTurns(s1, i);
      n := m + 1;
      var all := seq(n, _ => SenderTurn(i));
      assert all[1..] == seq(m, _ => SenderTurn(i));
      assert Run(s, all) == Run(Step(s, all[0]), all[1..]);
    }
  }
}
