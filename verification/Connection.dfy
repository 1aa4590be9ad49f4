/** The write half of a connection: an `AsyncWrite` whose answers are chosen by the environment. The script of answers
    is arbitrary, so what is proved about every script holds for every schedule of partial, pending and failing
    writes; an exhausted script answers that nothing is ready. */
module Connection {
  import opened Basics
  import opened Scripts

  datatype WriteAnswer = Accepts(n: nat) | WriteNotReady | WriteBreaks

  datatype FlushAnswer = Completes | FlushNotReady | FlushBreaks

  datatype TxError = WriteFailed | ConnectionClosed | FlushFailed | ShutdownFailed | TxClosed

  type Outcome = Poll<Result<(), TxError>>

  const DONE: Outcome := Ready(Ok(()))

  /** `written` is what the connection has accepted so far, `flushed` how much of it the last flush covered. */
  datatype Sink = Sink(
    writes: seq<WriteAnswer>, flushes: seq<FlushAnswer>, shutdowns: seq<FlushAnswer>, written: Bytes, flushed: nat)

  datatype WriteResult = WriteResult(sink: Sink, answer: Poll<Result<nat, TxError>>)

  /** `poll_write`: accepts a prefix of `buf`. */
  function Write(s: Sink, buf: Bytes): (r: WriteResult)
    ensures r.answer.Ready? && r.answer.value.Ok? ==>
              r.answer.value.value <= |buf| && r.sink.written == s.written + buf[..r.answer.value.value]
  {
    if s.writes == [] then WriteResult(s, Pending)
    else
      var next := s.(writes := s.writes[1..]);
      match s.writes[0]
      case WriteNotReady => WriteResult(next, Pending)
      case WriteBreaks => WriteResult(next, Ready(Err(WriteFailed)))
      case Accepts(n) =>
        var k := Min(n, |buf|);
        WriteResult(next.(written := s.written + buf[..k]), Ready(Ok(k)))
  }

  datatype SinkResult = SinkResult(sink: Sink, outcome: Outcome)

  /** `poll_flush` of the writer. */
  function Flush(s: Sink): SinkResult {
    if s.flushes == [] then SinkResult(s, Pending)
    else
      var next := s.(flushes := s.flushes[1..]);
      match s.flushes[0]
      case FlushNotReady => SinkResult(next, Pending)
      case FlushBreaks => SinkResult(next, Ready(Err(FlushFailed)))
      case Completes => SinkResult(next.(flushed := |s.written|), DONE)
  }

  function Shutdown(s: Sink): SinkResult {
    if s.shutdowns == [] then SinkResult(s, Pending)
    else
      var next := s.(shutdowns := s.shutdowns[1..]);
      match s.shutdowns[0]
      case FlushNotReady => SinkResult(next, Pending)
      case FlushBreaks => SinkResult(next, Ready(Err(ShutdownFailed)))
      case Completes => SinkResult(next, DONE)
  }

  datatype Transmission = Transmission(sink: Sink, rest: Bytes, outcome: Outcome)

  /** Write until nothing is left, the connection is not ready, or it fails; accepting nothing counts as failing. */
  function Transmit(s: Sink, buf: Bytes): Transmission
    decreases |buf|
  {
    if buf == [] then Transmission(s, buf, DONE)
    else
      var w := Write(s, buf);
      match w.answer
      case Pending => Transmission(w.sink, buf, Pending)
      case Ready(Err(e)) => Transmission(w.sink, buf, Ready(Err(e)))
      case Ready(Ok(n)) =>
        if n == 0 then Transmission(w.sink, buf, Ready(Err(ConnectionClosed)))
        else Transmit(w.sink, buf[n..])
  }

  /** Transmitting moves bytes from the buffer to the connection, and is done exactly when the buffer is empty. */
  lemma {:induction false} TransmitMoves(s: Sink, buf: Bytes)
    ensures Transmit(s, buf).sink.written + Transmit(s, buf).rest == s.written + buf
    ensures |Transmit(s, buf).rest| <= |buf|
    ensures s.written <= Transmit(s, buf).sink.written
    ensures Transmit(s, buf).outcome == DONE <==> Transmit(s, buf).rest == []
    decreases |buf|
  {
    if buf != [] {
      var w := Write(s, buf);
      if w.answer.Ready? && w.answer.value.Ok? && w.answer.value.value > 0 {
        var n := w.answer.value.value;
        assert Transmit(s, buf) == Transmit(w.sink, buf[n..]);
        TransmitMoves(w.sink, buf[n..]);
        Resplit(s.written, buf, n);
      }
    }
  }

  lemma Resplit(a: Bytes, b: Bytes, n: nat)
    requires n <= |b|
    ensures (a + b[..n]) + b[n..] == a + b
  {
  }

  /** Transmitting asks the connection for writes and for nothing else. */
  lemma {:induction false} TransmitOnlyWrites(s: Sink, buf: Bytes)
    ensures Transmit(s, buf).sink == s.(writes := Transmit(s, buf).sink.writes, written := Transmit(s, buf).sink.written)
    decreases |buf|
  {
    if buf != [] {
      var w := Write(s, buf);
      if w.answer.Ready? && w.answer.value.Ok? && w.answer.value.value > 0 {
        TransmitOnlyWrites(w.sink, buf[w.answer.value.value..]);
      }
    }
  }

  // ---------------------------------------------------------------------------------------------------------------
  // What the connection has answered
  // ---------------------------------------------------------------------------------------------------------------

  predicate Takes(w: WriteAnswer) {
    w.Accepts? && w.n > 0
  }

  /** The answers that end a transmission for good. */
  predicate IsFatal(w: WriteAnswer) {
    w == WriteBreaks || w == Accepts(0)
  }

  /** The outcome of a transmission with bytes left, by the last answer of the connection. An exhausted script is not
      ready. */
  function LastSays(used: seq<WriteAnswer>): Outcome {
    if used == [] || Takes(used[|used| - 1]) || used[|used| - 1] == WriteNotReady then Pending
    else if used[|used| - 1] == WriteBreaks then Ready(Err(WriteFailed))
    else Ready(Err(ConnectionClosed))
  }

  /** A transmission goes on as long as the connection takes bytes and there are any. If bytes are left, the last answer
      was something else, and is the outcome; or there was no further answer. */
  ghost predicate Answered(s: Sink, t: Transmission) {
    var used := Used(s.writes, t.sink.writes);
    && Remains(s.writes, t.sink.writes)
    && (forall i | 0 <= i < |used| - 1 :: Takes(used[i]))
    && (t.rest == [] ==> t.outcome == DONE && (used != [] ==> Takes(used[|used| - 1])))
    && (t.rest != [] ==> t.outcome == LastSays(used))
    && (t.rest != [] && (used == [] || Takes(used[|used| - 1])) ==> t.sink.writes == [])
  }

  lemma AnsweredOnce(s: Sink, buf: Bytes)
    requires buf != [] && (s.writes == [] || !Takes(s.writes[0]))
    ensures Answered(s, Transmit(s, buf))
  {
    UsedNothing(s.writes);
    if s.writes != [] {
      UsedOne(s.writes);
    }
  }

  lemma AnsweredMore(s: Sink, next: Sink, t: Transmission)
    requires s.writes != [] && Takes(s.writes[0]) && next.writes == s.writes[1..]
    requires Answered(next, t)
    ensures Answered(s, t)
  {
    UsedOne(s.writes);
    UsedAppend(s.writes, next.writes, t.sink.writes);
    var used, rest := Used(s.writes, t.sink.writes), Used(next.writes, t.sink.writes);
    assert used == [s.writes[0]] + rest;
    hide Used, Remains;
  }

  lemma {:induction false} TransmitAnswered(s: Sink, buf: Bytes)
    ensures Answered(s, Transmit(s, buf))
    decreases |buf|
  {
    if buf == [] {
      UsedNothing(s.writes);
    } else if s.writes == [] || !Takes(s.writes[0]) {
      AnsweredOnce(s, buf);
    } else {
      var w := Write(s, buf);
      assert Transmit(s, buf) == Transmit(w.sink, buf[w.answer.value.value..]);
      TransmitAnswered(w.sink, buf[w.answer.value.value..]);
      hide Transmit, Answered;
      AnsweredMore(s, w.sink, Transmit(s, buf));
    }
  }

  /** An `AsyncWrite` object. */
  class Writer {
    var writes: seq<WriteAnswer>
    var flushes: seq<FlushAnswer>
    var shutdowns: seq<FlushAnswer>
    ghost var written: Bytes
    ghost var flushed: nat

    ghost function State(): Sink
      reads this
    {
      Sink(writes, flushes, shutdowns, written, flushed)
    }

    constructor (writes: seq<WriteAnswer>, flushes: seq<FlushAnswer>, shutdowns: seq<FlushAnswer>)
      ensures State() == Sink(writes, flushes, shutdowns, [], 0)
    {
      this.writes, this.flushes, this.shutdowns := writes, flushes, shutdowns;
      written, flushed := [], 0;
    }

    method PollWrite(buf: Bytes) returns (r: Poll<Result<nat, TxError>>)
      modifies this
      ensures WriteResult(State(), r) == Write(old(State()), buf)
    {
      if writes == [] {
        return Pending;
      }
      var answer := writes[0];
      writes := writes[1..];
      match answer
      case WriteNotReady => r := Pending;
      case WriteBreaks => r := Ready(Err(WriteFailed));
      case Accepts(n) =>
        var k := Min(n, |buf|);
        written := written + buf[..k];
        r := Ready(Ok(k));
    }

    method PollFlush() returns (r: Outcome)
      modifies this
      ensures SinkResult(State(), r) == Flush(old(State()))
    {
      if flushes == [] {
        return Pending;
      }
      var answer := flushes[0];
      flushes := flushes[1..];
      match answer
      case FlushNotReady => r := Pending;
      case FlushBreaks => r := Ready(Err(FlushFailed));
      case Completes =>
        flushed := |written|;
        r := DONE;
    }

    method PollShutdown() returns (r: Outcome)
      modifies this
      ensures SinkResult(State(), r) == Shutdown(old(State()))
    {
      if shutdowns == [] {
        return Pending;
      }
      var answer := shutdowns[0];
      shutdowns := shutdowns[1..];
      match answer
      case FlushNotReady => r := Pending;
      case FlushBreaks => r := Ready(Err(ShutdownFailed));
      case Completes => r := DONE;
    }
  }
}
