/** The send side as functions: what each locked call does to the one byte buffer in front of the connection, which any
    number of cloned handles share, and what every call keeps. */
module TxSteps {
  import opened Basics
  import opened Connection

  /** Pushback begins at one mebibyte. */
  const PUSHBACK: nat := 1024 * 1024

  /** The bytes that a sequence of message bodies becomes on the connection. */
  function Wire(bodies: seq<Bytes>): Bytes {
    if bodies == [] then [] else bodies[0] + [NEWLINE] + Wire(bodies[1..])
  }

  /** The shared state. Beside the writer and its buffer: the bodies that have entered the buffer so far, in order, and
      how many of them the last successful flush covered. */
  datatype Local = Local(sink: Sink, transmitting: Bytes, accepted: seq<Bytes>, settled: nat)

  /** A message on its way to the buffer: `None` once it has been taken. */
  datatype Sending = Sending(body: Option<Bytes>)

  // ---------------------------------------------------------------------------------------------------------------
  // What one locked call does
  // ---------------------------------------------------------------------------------------------------------------

  datatype Polled = Polled(local: Local, outcome: Outcome)

  function PollTransmit(l: Local): Polled {
    var t := Transmit(l.sink, l.transmitting);
    Polled(l.(sink := t.sink, transmitting := t.rest), t.outcome)
  }

  /** The writer is flushed whatever became of the transmission; an error of the transmission comes first. */
  function PollFlush(l: Local): Polled {
    var t := PollTransmit(l);
    var f := Flush(t.local.sink);
    var l' := t.local.(sink := f.sink);
    if t.outcome == DONE && f.outcome == DONE then Polled(l'.(settled := |l.accepted|), DONE)
    else if t.outcome.Ready? && t.outcome.value.Err? then Polled(l', t.outcome)
    else if f.outcome.Ready? && f.outcome.value.Err? then Polled(l', f.outcome)
    else Polled(l', Pending)
  }

  function PollFlushInBackground(l: Local): Polled {
    var f := PollFlush(l);
    if f.outcome.Ready? then f
    else if |f.local.transmitting| >= PUSHBACK then Polled(f.local, Pending)
    else Polled(f.local, DONE)
  }

  /** Take the message, if it has not been taken before. */
  function Accept(l: Local, msg: Sending): Local {
    match msg.body
    case None => l
    case Some(body) =>
      l.(transmitting := l.transmitting + body + [NEWLINE], accepted := l.accepted + [body])
  }

  datatype PolledSend = PolledSend(local: Local, msg: Sending, outcome: Outcome)

  function PollSend(l: Local, msg: Sending): PolledSend {
    var before := PollFlushInBackground(l);
    if before.outcome != DONE then PolledSend(before.local, msg, before.outcome)
    else
      var after := PollFlushInBackground(Accept(before.local, msg));
      PolledSend(after.local, Sending(None), after.outcome)
  }

  /** `TxLocal::close` from poll to poll: draining, then shutting the connection down, then over. `lost` says that a
      write returned zero or an error while bytes were left. */
  datatype CloseStage = Draining | ShuttingDown(lost: bool) | Returned(lost: bool, ok: bool)

  datatype PolledClose = PolledClose(local: Local, stage: CloseStage)

  function PollShutdown(l: Local, lost: bool): PolledClose {
    var s := Shutdown(l.sink);
    var l' := l.(sink := s.sink);
    match s.outcome
    case Pending => PolledClose(l', ShuttingDown(lost))
    case Ready(r) => PolledClose(l', Returned(lost, r.Ok?))
  }

  function PollClose(l: Local, stage: CloseStage): PolledClose {
    match stage
    case Draining =>
      var t := PollTransmit(l);
      if t.outcome.Pending? then PolledClose(t.local, Draining) else PollShutdown(t.local, t.outcome != DONE)
    case ShuttingDown(lost) => PollShutdown(l, lost)
    case Returned(_, _) => PolledClose(l, stage)
  }

  // ---------------------------------------------------------------------------------------------------------------
  // What every call keeps: the ledger
  // ---------------------------------------------------------------------------------------------------------------

  /** What is written and what is still buffered is the wire form of what was accepted: nothing torn, duplicated, lost
      or reordered. And what a flush has settled is on the connection, before the writer's own flush mark. */
  ghost predicate Ledger(l: Local) {
    && l.sink.written + l.transmitting == Wire(l.accepted)
    && l.sink.flushed <= |l.sink.written|
    && l.settled <= |l.accepted|
    && |Wire(l.accepted[..l.settled])| <= l.sink.flushed
  }

  lemma {:induction false} WireAppend(a: seq<Bytes>, b: seq<Bytes>)
    ensures Wire(a + b) == Wire(a) + Wire(b)
  {
    if a == [] {
      assert a + b == b;
    } else {
      assert (a + b)[1..] == a[1..] + b;
      WireAppend(a[1..], b);
    }
  }

  lemma WirePrefix(bodies: seq<Bytes>, k: nat)
    requires k <= |bodies|
    ensures Wire(bodies[..k]) <= Wire(bodies)
  {
    assert bodies[..k] + bodies[k..] == bodies;
    WireAppend(bodies[..k], bodies[k..]);
    hide Wire;
  }

  lemma WireSnoc(a: seq<Bytes>, body: Bytes)
    ensures Wire(a + [body]) == Wire(a) + body + [NEWLINE]
  {
    WireAppend(a, [body]);
    assert Wire([body]) == body + [NEWLINE];
  }

  /** What a call may do to the state: append to the two logs, and change the buffer so that the ledger holds. */
  ghost predicate Extends(l: Local, l': Local) {
    && Ledger(l')
    && l.sink.written <= l'.sink.written
    && l.accepted <= l'.accepted
    && l.sink.flushed <= l'.sink.flushed
    && l.settled <= l'.settled
  }

  lemma PollTransmitKeeps(l: Local)
    requires Ledger(l)
    ensures Extends(l, PollTransmit(l).local)
    ensures PollTransmit(l).local.accepted == l.accepted
    ensures |PollTransmit(l).local.transmitting| <= |l.transmitting|
    ensures PollTransmit(l).outcome == DONE <==> PollTransmit(l).local.transmitting == []
  {
    TransmitMoves(l.sink, l.transmitting);
    TransmitOnlyWrites(l.sink, l.transmitting);
  }

  /** A flush that succeeds has delivered everything accepted by anyone up to that moment, and flushed the writer after
      it; a flush that does not succeed has not moved the settled mark. */
  lemma FlushDelivers(l: Local)
    requires Ledger(l)
    ensures var f := PollFlush(l);
            && Extends(l, f.local)
            && f.local.accepted == l.accepted
            && |f.local.transmitting| <= |l.transmitting|
            && (f.outcome == DONE ==>
                  && f.local.transmitting == []
                  && f.local.sink.written == Wire(l.accepted)
                  && f.local.sink.flushed == |f.local.sink.written|
                  && f.local.settled == |l.accepted|)
            && (f.outcome != DONE ==> f.local.settled == l.settled)
  {
    PollTransmitKeeps(l);
    assert l.accepted[..|l.accepted|] == l.accepted;
  }

  /** When a flush in the background reports success, fewer bytes than the pushback limit are left. */
  lemma BackgroundFlushKeeps(l: Local)
    requires Ledger(l)
    ensures var f := PollFlushInBackground(l);
            && Extends(l, f.local)
            && f.local.accepted == l.accepted
            && |f.local.transmitting| <= |l.transmitting|
            && (f.outcome == DONE ==> |f.local.transmitting| < PUSHBACK)
  {
    FlushDelivers(l);
  }

  lemma AcceptKeeps(l: Local, msg: Sending)
    requires Ledger(l)
    ensures Extends(l, Accept(l, msg))
    ensures Accept(l, msg).accepted == l.accepted + if msg.body.Some? then [msg.body.value] else []
  {
    if msg.body.Some? {
      WireSnoc(l.accepted, msg.body.value);
      assert (l.accepted + [msg.body.value])[..l.settled] == l.accepted[..l.settled];
      assert l.sink.written + (l.transmitting + msg.body.value + [NEWLINE])
          == l.sink.written + l.transmitting + msg.body.value + [NEWLINE];
    }
  }

  /** A send takes its message at most once: the message is untaken and nothing was accepted, or it is taken and
      exactly what was left of it was accepted. Only a taken message is reported as sent, and then the buffer is below
      the pushback limit; at no time does it exceed the limit by more than the body. */
  lemma SendKeeps(l: Local, msg: Sending)
    requires Ledger(l)
    ensures var s := PollSend(l, msg);
            && Extends(l, s.local)
            && s.local.accepted == l.accepted + (if msg.body.Some? && s.msg.body.None? then [msg.body.value] else [])
            && (s.msg == msg || s.msg.body.None?)
            && (s.outcome == DONE ==> s.msg.body.None? && |s.local.transmitting| < PUSHBACK)
            && |s.local.transmitting| <=
                 (if |l.transmitting| <= PUSHBACK then PUSHBACK else |l.transmitting|)
                   + (if msg.body.Some? then |msg.body.value| else 0)
            && (s.local.accepted == l.accepted ==> |s.local.transmitting| <= |l.transmitting|)
            && (s.local.accepted != l.accepted ==> |s.local.transmitting| <= PUSHBACK + |msg.body.value|)
  {
    var before := PollFlushInBackground(l);
    BackgroundFlushKeeps(l);
    if before.outcome == DONE {
      AcceptKeeps(before.local, msg);
      BackgroundFlushKeeps(Accept(before.local, msg));
    }
  }

  lemma PollShutdownKeeps(l: Local, lost: bool)
    requires Ledger(l)
    ensures var c := PollShutdown(l, lost);
            && Extends(l, c.local) && c.local.accepted == l.accepted && c.local.transmitting == l.transmitting
            && c.stage != Draining && c.stage.lost == lost
  {
  }

  /** Closing accepts nothing, and when it is past draining without a loss, every accepted frame is written. */
  lemma CloseKeeps(l: Local, stage: CloseStage)
    requires Ledger(l)
    requires stage != Draining && !stage.lost ==> l.transmitting == []
    ensures var c := PollClose(l, stage);
            && Extends(l, c.local) && c.local.accepted == l.accepted
            && |c.local.transmitting| <= |l.transmitting|
            && (c.stage != Draining && !c.stage.lost ==>
                  c.local.transmitting == [] && c.local.sink.written == Wire(l.accepted))
  {
    if stage == Draining {
      PollTransmitKeeps(l);
      var t := PollTransmit(l);
      if t.outcome.Ready? {
        PollShutdownKeeps(t.local, t.outcome != DONE);
      }
    } else if stage.ShuttingDown? {
      PollShutdownKeeps(l, stage.lost);
    }
  }

  // ---------------------------------------------------------------------------------------------------------------
  // The handle, and the future it returns
  // ---------------------------------------------------------------------------------------------------------------

  /** What the mutex guards: the state, or the error that replaces it when the handle is closed. */
  datatype Shared = Open(local: Local) | Shut

  /** `DoSend`: the messages still to be sent, the first perhaps taken already. */
  datatype SendFuture = SendFuture(msgs: seq<Sending>, flush: bool)

  /** One turn of `DoSend::poll`, which is one locked call: the state and the future after it, and what the poll returns
      if it ends there. */
  datatype Turn = Turn(tx: Shared, future: SendFuture, result: Option<Outcome>)

  function LockedFlush(tx: Shared): (Shared, Outcome) {
    match tx
    case Open(l) =>
      var f := PollFlush(l);
      (Open(f.local), f.outcome)
    case Shut => (Shut, Ready(Err(TxClosed)))
  }

  function LockedSend(tx: Shared, msg: Sending): (Shared, Sending, Outcome) {
    match tx
    case Open(l) =>
      var s := PollSend(l, msg);
      (Open(s.local), s.msg, s.outcome)
    case Shut => (Shut, msg, Ready(Err(TxClosed)))
  }

  function SendTurn(tx: Shared, d: SendFuture): Turn {
    if d.msgs != [] then
      var (tx', msg, outcome) := LockedSend(tx, d.msgs[0]);
      if outcome == DONE then Turn(tx', d.(msgs := d.msgs[1..]), None)
      else Turn(tx', d.(msgs := d.msgs[0 := msg]), Some(outcome))
    else if d.flush then
      var (tx', outcome) := LockedFlush(tx);
      Turn(tx', d, Some(outcome))
    else Turn(tx, d, Some(DONE))
  }

  datatype PolledFuture = PolledFuture(tx: Shared, future: SendFuture, outcome: Outcome)

  /** A whole poll: turns until one ends it. */
  function PollFuture(tx: Shared, d: SendFuture): PolledFuture
    decreases |d.msgs|
  {
    var t := SendTurn(tx, d);
    match t.result
    case Some(outcome) => PolledFuture(t.tx, t.future, outcome)
    case None => PollFuture(t.tx, t.future)
  }

  /** `Tx::send`, `Tx::send_and_flush` and `Tx::flush`: the future for some bodies. */
  function NewFuture(bodies: seq<Bytes>, flush: bool): SendFuture {
    SendFuture(seq(|bodies|, i requires 0 <= i < |bodies| => Sending(Some(bodies[i]))), flush)
  }
}
