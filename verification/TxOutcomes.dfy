/** What the calls of the send side answer, told by what the connection has answered: an error comes from the connection and
    nowhere else, and none is swallowed; and a call is kept waiting for nothing else than the connection. */
module TxOutcomes {
  import opened Basics
  import opened Scripts
  import opened Connection
  import opened TxSteps

  predicate IsError(o: Outcome) {
    o.Ready? && o.value.Err?
  }

  /** `after` is `before` with some answers used up. */
  predicate SinkRemains(before: Sink, after: Sink) {
    && Remains(before.writes, after.writes)
    && Remains(before.flushes, after.flushes)
    && Remains(before.shutdowns, after.shutdowns)
  }

  predicate AnyFatal(used: seq<WriteAnswer>) {
    exists w | w in used :: IsFatal(w)
  }

  /** None of the answers used in between was a failure. */
  predicate Clean(before: Sink, after: Sink) {
    && !AnyFatal(Used(before.writes, after.writes))
    && FlushBreaks !in Used(before.flushes, after.flushes)
  }

  lemma CleanSame(s: Sink)
    ensures SinkRemains(s, s) && Clean(s, s)
  {
    UsedNothing(s.writes);
    UsedNothing(s.flushes);
  }

  lemma CleanAppend(a: Sink, b: Sink, c: Sink)
    requires SinkRemains(a, b) && SinkRemains(b, c)
    ensures SinkRemains(a, c)
    ensures Clean(a, c) <==> Clean(a, b) && Clean(b, c)
  {
    UsedAppend(a.writes, b.writes, c.writes);
    UsedAppend(a.flushes, b.flushes, c.flushes);
    UsedAppend(a.shutdowns, b.shutdowns, c.shutdowns);
    hide Used, Remains, IsFatal;
    var u, v := Used(a.writes, b.writes), Used(b.writes, c.writes);
    assert forall w :: w in u + v <==> w in u || w in v;
  }

  // ---------------------------------------------------------------------------------------------------------------
  // Flushing
  // ---------------------------------------------------------------------------------------------------------------

  /** The outcome of a transmission, by all answers that it has used. */
  lemma TransmissionSays(s: Sink, t: Transmission)
    requires Answered(s, t)
    ensures var used := Used(s.writes, t.sink.writes);
            t.outcome == if AnyFatal(used) then LastSays(used) else if t.rest == [] then DONE else Pending
    ensures AnyFatal(Used(s.writes, t.sink.writes)) ==> t.rest != [] && IsError(t.outcome)
  {
    hide Used, Remains;
    var used := Used(s.writes, t.sink.writes);
    if used != [] {
      var last := used[|used| - 1];
      assert last in used;
      assert forall w <- used :: IsFatal(w) ==> w == last;
    }
  }

  function FirstFlush(s: Sink): FlushAnswer {
    if s.flushes == [] then FlushNotReady else s.flushes[0]
  }

  /** What is left of the script of flushes when one was asked for. */
  function AfterFlush(s: Sink): seq<FlushAnswer> {
    if s.flushes == [] then [] else s.flushes[1..]
  }

  lemma FlushAsks(s: Sink)
    ensures Flush(s).sink.flushes == AfterFlush(s) && Flush(s).sink.writes == s.writes
    ensures Flush(s).sink.shutdowns == s.shutdowns
    ensures Flush(s).outcome == (match FirstFlush(s)
                                 case Completes => DONE
                                 case FlushBreaks => Ready(Err(FlushFailed))
                                 case FlushNotReady => Pending)
  {
  }

  lemma AfterFlushRemains(s: Sink)
    ensures Remains(s.flushes, AfterFlush(s))
    ensures FlushBreaks in Used(s.flushes, AfterFlush(s)) <==> FirstFlush(s) == FlushBreaks
  {
    UsedNothing(s.flushes);
    if s.flushes != [] {
      UsedOne(s.flushes);
    }
  }

  /** The outcome of a flush: the failure of the transmission, or else that of the flush, or else success if everything has
      been written and flushed. Each call asks for one flush. */
  lemma FlushOutcome(l: Local)
    ensures var f := PollFlush(l);
            var used := Used(l.sink.writes, f.local.sink.writes);
            && Remains(l.sink.writes, f.local.sink.writes)
            && f.local.sink.shutdowns == l.sink.shutdowns && f.local.sink.flushes == AfterFlush(l.sink)
            && (AnyFatal(used) ==> IsError(LastSays(used)))
            && f.outcome ==
                 (if AnyFatal(used) then LastSays(used)
                  else if FirstFlush(l.sink) == FlushBreaks then Ready(Err(FlushFailed))
                  else if f.local.transmitting == [] && FirstFlush(l.sink) == Completes then DONE
                  else Pending)
  {
    hide Transmit, Flush, AnyFatal, Used, Remains, LastSays, FirstFlush, AfterFlush;
    var t := Transmit(l.sink, l.transmitting);
    TransmitAnswered(l.sink, l.transmitting);
    TransmitOnlyWrites(l.sink, l.transmitting);
    TransmissionSays(l.sink, t);
    FlushAsks(t.sink);
    SameFlushes(l.sink, t.sink);
  }

  lemma SameFlushes(a: Sink, b: Sink)
    requires a.flushes == b.flushes
    ensures FirstFlush(a) == FirstFlush(b) && AfterFlush(a) == AfterFlush(b)
  {
  }

  lemma FlushFails(l: Local)
    ensures var f := PollFlush(l);
            && SinkRemains(l.sink, f.local.sink)
            && (IsError(f.outcome) <==> !Clean(l.sink, f.local.sink))
  {
    hide PollFlush, AnyFatal, Used, Remains, LastSays, FirstFlush, AfterFlush;
    FlushOutcome(l);
    AfterFlushRemains(l.sink);
    UsedNothing(l.sink.shutdowns);
  }

  /** In the background a connection that is not ready is no hindrance as long as fewer than 1048576 bytes are left. A
      failure is one all the same. */
  lemma BackgroundOutcome(l: Local)
    ensures var b := PollFlushInBackground(l);
            && b.local == PollFlush(l).local
            && SinkRemains(l.sink, b.local.sink) && b.local.sink.shutdowns == l.sink.shutdowns
            && (IsError(b.outcome) ==> b.outcome == PollFlush(l).outcome)
            && (IsError(b.outcome) <==> !Clean(l.sink, b.local.sink))
            && (b.outcome == DONE <==> Clean(l.sink, b.local.sink) && |b.local.transmitting| < 1048576)
  {
    hide PollFlush, Clean, SinkRemains, AnyFatal, Used, Remains;
    FlushOutcome(l);
    FlushFails(l);
  }

  // ---------------------------------------------------------------------------------------------------------------
  // Sending
  // ---------------------------------------------------------------------------------------------------------------

  /** A send fails exactly when the connection has failed meanwhile, and succeeds otherwise as soon as fewer than 1048576
      bytes are left, whether the connection was ready or not. A message that waits is not taken before that. */
  lemma SendOutcome(l: Local, msg: Sending)
    ensures var s := PollSend(l, msg);
            && SinkRemains(l.sink, s.local.sink) && s.local.sink.shutdowns == l.sink.shutdowns
            && (IsError(s.outcome) <==> !Clean(l.sink, s.local.sink))
            && (s.outcome == DONE <==> Clean(l.sink, s.local.sink) && |s.local.transmitting| < 1048576)
            && (var left := |PollFlush(l).local.transmitting|;
                s.msg.body.None? <==> msg.body.None? || (Clean(l.sink, PollFlush(l).local.sink) && left < 1048576))
  {
    hide Clean, SinkRemains, PollFlush, PollFlushInBackground;
    BackgroundOutcome(l);
    var before := PollFlushInBackground(l);
    if before.outcome == DONE {
      var l' := Accept(before.local, msg);
      BackgroundOutcome(l');
      CleanAppend(l.sink, before.local.sink, PollFlushInBackground(l').local.sink);
    }
  }

  /** A message for a connection that does not fail is sent at once if it and what is buffered are less than a mebibyte,
      however long the connection is not ready. */
  lemma SmallMessageIsSent(l: Local, body: Bytes)
    requires Ledger(l) && |l.transmitting| + |body| + 1 < 1048576
    requires !AnyFatal(l.sink.writes) && FlushBreaks !in l.sink.flushes
    ensures PollSend(l, Sending(Some(body))).outcome == DONE
    ensures PollSend(l, Sending(Some(body))).local.accepted == l.accepted + [body]
  {
    hide PollSend, Clean, SinkRemains, AnyFatal, Ledger, Extends, PollFlush;
    var s := PollSend(l, Sending(Some(body)));
    SendOutcome(l, Sending(Some(body)));
    SendKeeps(l, Sending(Some(body)));
    NeverFails(l.sink, s.local.sink);
    SendLength(l, body);
  }

  lemma NeverFails(before: Sink, after: Sink)
    requires !AnyFatal(before.writes) && FlushBreaks !in before.flushes
    ensures Clean(before, after)
  {
  }

  lemma SendLength(l: Local, body: Bytes)
    requires Ledger(l)
    ensures |PollSend(l, Sending(Some(body))).local.transmitting| <= |l.transmitting| + |body| + 1
  {
    hide PollFlushInBackground, Ledger, Extends;
    BackgroundFlushKeeps(l);
    var before := PollFlushInBackground(l);
    AcceptKeeps(before.local, Sending(Some(body)));
    BackgroundFlushKeeps(Accept(before.local, Sending(Some(body))));
  }

  /** One turn of a future on an open connection. */
  lemma TurnOutcome(l: Local, d: SendFuture)
    ensures var t := SendTurn(Open(l), d);
            && t.tx.Open? && SinkRemains(l.sink, t.tx.local.sink) && t.tx.local.sink.shutdowns == l.sink.shutdowns
            && (t.result.Some? && IsError(t.result.value) <==> !Clean(l.sink, t.tx.local.sink))
            && (t.result == Some(Pending) ==> if d.msgs != [] then |t.tx.local.transmitting| >= 1048576 else d.flush)
  {
    hide PollSend, PollFlush, Clean, SinkRemains, AnyFatal;
    CleanSame(l.sink);
    if d.msgs != [] {
      SendOutcome(l, d.msgs[0]);
    } else if d.flush {
      FlushOutcome(l);
      FlushFails(l);
    }
  }

  // ---------------------------------------------------------------------------------------------------------------
  // Closing
  // ---------------------------------------------------------------------------------------------------------------

  function LastShutdown(used: seq<FlushAnswer>): FlushAnswer {
    if used == [] then FlushNotReady else used[|used| - 1]
  }

  /** What closing makes of the answers of the shutdown. */
  predicate ShutdownSays(stage: CloseStage, used: seq<FlushAnswer>) {
    match stage
    case Draining => used == []
    case ShuttingDown(_) => LastShutdown(used) == FlushNotReady
    case Returned(_, ok) => LastShutdown(used) == if ok then Completes else FlushBreaks
  }

  /** One poll of closing. While bytes are left and no write fails, the draining goes on; giving them up is for the failure of
      a write. Then the connection is shut down until it answers, and its answer is what closing returns. */
  lemma CloseOutcome(l: Local, stage: CloseStage)
    ensures var c := PollClose(l, stage);
            var fatal := AnyFatal(Used(l.sink.writes, c.local.sink.writes));
            && SinkRemains(l.sink, c.local.sink) && c.local.sink.flushes == l.sink.flushes
            && (stage == Draining ==>
                  && (c.stage == Draining <==> c.local.transmitting != [] && !fatal)
                  && (c.stage != Draining ==> (c.stage.lost <==> fatal)))
            && (stage != Draining ==> !fatal && c.stage != Draining && c.stage.lost == stage.lost)
            && (stage.Returned? ==> c == PolledClose(l, stage))
            && (!stage.Returned? ==> ShutdownSays(c.stage, Used(l.sink.shutdowns, c.local.sink.shutdowns)))
  {
    hide Transmit, Used, Remains, AnyFatal, LastSays;
    NothingUsed(l.sink);
    ShutdownAsks(l.sink);
    if stage == Draining {
      var t := Transmit(l.sink, l.transmitting);
      TransmitAnswered(l.sink, l.transmitting);
      TransmitOnlyWrites(l.sink, l.transmitting);
      TransmissionSays(l.sink, t);
      ShutdownAsks(t.sink);
    }
  }

  lemma NothingUsed(s: Sink)
    ensures Remains(s.writes, s.writes) && !AnyFatal(Used(s.writes, s.writes))
    ensures Remains(s.flushes, s.flushes)
    ensures Remains(s.shutdowns, s.shutdowns) && Used(s.shutdowns, s.shutdowns) == []
  {
    UsedNothing(s.writes);
    UsedNothing(s.flushes);
    UsedNothing(s.shutdowns);
  }

  lemma ShutdownAsks(s: Sink)
    ensures var d := Shutdown(s);
            && d.sink.writes == s.writes && d.sink.flushes == s.flushes
            && Remains(s.shutdowns, d.sink.shutdowns)
            && d.outcome == (match LastShutdown(Used(s.shutdowns, d.sink.shutdowns))
                             case Completes => DONE
                             case FlushBreaks => Ready(Err(ShutdownFailed))
                             case FlushNotReady => Pending)
  {
    UsedNothing(s.shutdowns);
    if s.shutdowns != [] {
      UsedOne(s.shutdowns);
    }
  }
}
