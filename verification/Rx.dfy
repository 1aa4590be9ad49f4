/** The receive side as objects, which do in place what `Framing` and `RxSteps` say. */
module Rx {
  import opened Basics
  import opened Source
  import opened Messages
  import opened Framing
  import opened RxSteps
  import Steps = RxSteps

  /** The parking queue. */
  class MsgBuffer {
    var queue: seq<Message>

    constructor ()
      ensures queue == []
    {
      queue := [];
    }

    method Push(msg: Message)
      modifies this
      ensures queue == old(queue) + [msg]
    {
      queue := queue + [msg];
    }

    /** Every slot is emptied to try its message, and filled again with what the filter gave back. */
    method Pop<M>(from: Filter<M>) returns (r: Option<M>)
      requires GivesBack(from)
      modifies this
      ensures var k := FirstMatch(old(queue), from);
              if k < |old(queue)|
              then queue == RemoveAt(old(queue), k) && r.Some? && from(old(queue)[k]) == Ok(r.value)
              else queue == old(queue) && r == None
    {
      var ix := 0;
      while ix < |queue|
        invariant 0 <= ix <= |queue|
        invariant queue == old(queue)
        invariant forall j | 0 <= j < ix :: from(queue[j]).Err?
      {
        var msg := queue[ix];
        queue := queue[ix := NoOp];
        match from(msg) {
          case Ok(m) =>
            assert FirstMatch(old(queue), from) == ix;
            queue := queue[..ix] + queue[ix + 1..];
            return Some(m);
          case Err(back) =>
            queue := queue[ix := back];
        }
        ix := ix + 1;
      }
      r := None;
    }

    method Close() returns (msgs: seq<Message>)
      modifies this
      ensures msgs == old(queue) && queue == []
    {
      msgs := queue;
      queue := [];
    }
  }

  class MsgReader {
    const reader: Reader
    const decode: Decoder
    var buffer: Bytes

    ghost function State(): Reading
      reads this, reader
    {
      Reading(reader.State(), buffer)
    }

    constructor (reader: Reader, decode: Decoder)
      ensures this.reader == reader && this.decode == decode && State() == Reading(reader.State(), [])
    {
      this.reader, this.decode := reader, decode;
      buffer := [];
    }

    method PollReadMessage() returns (r: Answer)
      modifies this, reader
      ensures PolledRead(State(), r) == Framing.PollReadMessage(old(State()), decode)
    {
      hide IndexOf, FrameAnswer, Framing.PollReadMessage;
      while true
        invariant Framing.PollReadMessage(State(), decode) == old(Framing.PollReadMessage(State(), decode))
        decreases |reader.unread|, if EndsLine(buffer) then 0 else 1, |buffer|
      {
        PollOnce(State(), decode);
        match IndexOf(buffer, NEWLINE) {
          case Some(ix) =>
            if ix == 0 {
              buffer := buffer[1..];
              continue;
            }
            var frame := buffer[..ix];
            buffer := buffer[ix + 1..];
            return FrameAnswer(decode, frame);
          case None =>
            var read := reader.PollRead();
            match read {
              case Pending => return Pending;
              case Ready(Err(_)) => return Ready(Err(TransportFailed));
              case Ready(Ok(chunk)) =>
                if chunk != [] {
                  buffer := buffer + chunk;
                } else if buffer == [] {
                  return Ready(Ok(None));
                } else {
                  buffer := buffer + [NEWLINE];
                }
            }
        }
      }
    }

    method Close() returns (rest: Bytes)
      modifies this
      ensures rest == old(buffer) && buffer == []
    {
      rest := buffer;
      buffer := [];
    }
  }

  class RxLocal {
    const reader: MsgReader
    const msgs: MsgBuffer

    ghost function State(): Local
      reads this, reader, reader.reader, msgs
    {
      Local(reader.State(), msgs.queue)
    }

    constructor (source: Reader, decode: Decoder)
      ensures reader.decode == decode && reader.reader == source
      ensures State() == Local(Reading(source.State(), []), [])
      ensures fresh(reader) && fresh(msgs)
    {
      reader := new MsgReader(source, decode);
      msgs := new MsgBuffer();
    }

    /** `Recv::poll` on any clone, under the lock. */
    method PollRecv<M>(from: Filter<M>) returns (r: Poll<Result<Option<M>, RxError>>)
      requires GivesBack(from)
      modifies reader, reader.reader, msgs
      ensures PolledRecv(State(), r) == Steps.PollRecv(old(State()), from, reader.decode)
    {
      var parked := msgs.Pop(from);
      if parked.Some? {
        return Ready(Ok(parked));
      }
      while true
        invariant ReceiveNew(State(), from, reader.decode) == ReceiveNew(old(State()), from, reader.decode)
        decreases Size(reader.State())
      {
        ReadDelivers(reader.State(), reader.decode);
        var read := reader.PollReadMessage();
        match read {
          case Pending => return Pending;
          case Ready(Err(e)) => return Ready(Err(e));
          case Ready(Ok(None)) => return Ready(Ok(None));
          case Ready(Ok(Some(msg))) =>
            match from(msg) {
              case Ok(m) => return Ready(Ok(Some(m)));
              case Err(back) => msgs.Push(back);
            }
        }
      }
    }

    /** Hands out what was read but not delivered, as bytes and as messages. */
    method Close() returns (rest: Bytes, parked: seq<Message>)
      modifies reader, msgs
      ensures rest == old(reader.buffer) && parked == old(msgs.queue)
      ensures reader.buffer == [] && msgs.queue == []
    {
      rest := reader.Close();
      parked := msgs.Close();
    }
  }
}
