/** The send side as objects, which do in place what `TxSteps` says. */
module Tx {
  import opened Basics
  import opened Connection
  import opened TxSteps
  import Steps = TxSteps

  class TxLocal {
    const writer: Writer
    var transmitting: Bytes
    ghost var accepted: seq<Bytes>
    ghost var settled: nat

    ghost function State(): Local
      reads this, writer
    {
      Local(writer.State(), transmitting, accepted, settled)
    }

    constructor (writer: Writer)
      ensures this.writer == writer && State() == Local(writer.State(), [], [], 0)
    {
      this.writer := writer;
      transmitting, accepted, settled := [], [], 0;
    }

    method PollTransmit() returns (r: Outcome)
      modifies this, writer
      ensures Polled(State(), r) == Steps.PollTransmit(old(State()))
    {
      while transmitting != []
        invariant accepted == old(accepted) && settled == old(settled)
        invariant Transmit(writer.State(), transmitting) == old(Transmit(writer.State(), transmitting))
        decreases |transmitting|
      {
        var w := writer.PollWrite(transmitting);
        match w {
          case Pending => return Pending;
          case Ready(Err(e)) => return Ready(Err(e));
          case Ready(Ok(n)) =>
            if n == 0 {
              return Ready(Err(ConnectionClosed));
            }
            transmitting := transmitting[n..];
        }
      }
      r := DONE;
    }

    method PollFlush() returns (r: Outcome)
      modifies this, writer
      ensures Polled(State(), r) == Steps.PollFlush(old(State()))
    {
      var transmitted := PollTransmit();
      var flushed := writer.PollFlush();
      if transmitted == DONE && flushed == DONE {
        settled := |accepted|;
        r := DONE;
      } else if transmitted.Ready? && transmitted.value.Err? {
        r := transmitted;
      } else if flushed.Ready? && flushed.value.Err? {
        r := flushed;
      } else {
        r := Pending;
      }
    }

    method PollFlushInBackground() returns (r: Outcome)
      modifies this, writer
      ensures Polled(State(), r) == Steps.PollFlushInBackground(old(State()))
    {
      r := PollFlush();
      if r.Pending? && |transmitting| < PUSHBACK {
        r := DONE;
      }
    }

    /** The message is passed and returned, which is what the exclusive borrow in the source amounts to. */
    method PollSend(msg: Sending) returns (msg': Sending, r: Outcome)
      modifies this, writer
      ensures PolledSend(State(), msg', r) == Steps.PollSend(old(State()), msg)
    {
      msg' := msg;
      r := PollFlushInBackground();
      if r != DONE {
        return;
      }
      msg' := Sending(None);
      match msg.body {
        case None =>
        case Some(body) =>
          transmitting := transmitting + body;
          transmitting := transmitting + [NEWLINE];
          accepted := accepted + [body];
      }
      r := PollFlushInBackground();
    }

    /** One poll of `close`. */
    method PollClose(stage: CloseStage) returns (stage': CloseStage)
      modifies this, writer
      ensures PolledClose(State(), stage') == Steps.PollClose(old(State()), stage)
    {
      stage' := stage;
      if stage'.Draining? {
        var drained := PollTransmit();
        if drained.Pending? {
          return;
        }
        stage' := ShuttingDown(drained != DONE);
      }
      if stage'.ShuttingDown? {
        var down := writer.PollShutdown();
        if down.Ready? {
          stage' := Returned(stage'.lost, down.value.Ok?);
        }
      }
    }
  }

  /** `Tx`: clones are references to one object; `None` is the closed state. */
  class Handle {
    var local: Option<TxLocal>

    ghost function Repr(): set<object>
      reads this
    {
      match local
      case None => {this}
      case Some(l) => {this, l, l.writer}
    }

    ghost function State(): Shared
      reads this, Repr()
    {
      match local
      case None => Shut
      case Some(l) => Open(l.State())
    }

    constructor (writer: Writer)
      ensures State() == Open(Local(writer.State(), [], [], 0))
      ensures fresh(Repr() - {writer})
    {
      var l := new TxLocal(writer);
      local := Some(l);
    }

    method PollFlush() returns (r: Outcome)
      modifies Repr()
      ensures local == old(local)
      ensures (State(), r) == LockedFlush(old(State()))
    {
      match local
      case None => r := Ready(Err(TxClosed));
      case Some(l) => r := l.PollFlush();
    }

    method PollSend(msg: Sending) returns (msg': Sending, r: Outcome)
      modifies Repr()
      ensures local == old(local)
      ensures (State(), msg', r) == LockedSend(old(State()), msg)
    {
      match local
      case None => msg', r := msg, Ready(Err(TxClosed));
      case Some(l) => msg', r := l.PollSend(msg);
    }

    /** The step of `close` that takes the state out, so that every clone finds the error in its place. */
    method Take() returns (taken: Option<TxLocal>)
      modifies this
      ensures taken == old(local) && State() == Shut
      ensures taken.Some? ==> Open(taken.value.State()) == old(State())
    {
      taken := local;
      local := None;
    }
  }

  class DoSend {
    const tx: Handle
    var msgs: seq<Sending>
    var flush: bool

    ghost function State(): SendFuture
      reads this
    {
      SendFuture(msgs, flush)
    }

    constructor (tx: Handle, bodies: seq<Bytes>, flush: bool)
      ensures this.tx == tx && State() == NewFuture(bodies, flush)
    {
      this.tx, this.flush := tx, flush;
      msgs := NewFuture(bodies, flush).msgs;
    }

    /** A new future in the place of the old one. */
    method Replace(bodies: seq<Bytes>, flush: bool)
      modifies this
      ensures State() == NewFuture(bodies, flush)
    {
      this.flush := flush;
      msgs := NewFuture(bodies, flush).msgs;
    }

    method Poll() returns (r: Outcome)
      modifies this, tx.Repr()
      ensures tx.local == old(tx.local)
      ensures PolledFuture(tx.State(), State(), r) == PollFuture(old(tx.State()), old(State()))
    {
      while msgs != []
        invariant tx.local == old(tx.local)
        invariant PollFuture(tx.State(), State()) == PollFuture(old(tx.State()), old(State()))
        decreases |msgs|
      {
        ghost var d, shared := State(), tx.State();
        var msg', sent := tx.PollSend(msgs[0]);
        msgs := msgs[0 := msg'];
        if sent != DONE {
          return sent;
        }
        assert msg'.body.None?;
        msgs := msgs[1..];
        assert SendTurn(shared, d) == Turn(tx.State(), State(), None);
      }
      if flush {
        r := tx.PollFlush();
      } else {
        r := DONE;
      }
    }
  }
}
