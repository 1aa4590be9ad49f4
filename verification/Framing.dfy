/** Frames: the lines of a byte stream, as they are recovered from arbitrary chunks. */
module Framing {
  import opened Basics
  import opened Source
  import opened Messages

  /** The newline split, blank lines dropped, a non-empty unterminated tail kept. */
  function Frames(stream: Bytes): seq<Bytes>
    decreases |stream|
  {
    match IndexOf(stream, NEWLINE)
    case None => if stream == [] then [] else [stream]
    case Some(i) => (if i == 0 then [] else [stream[..i]]) + Frames(stream[i + 1..])
  }

  type Decoder = Bytes -> Option<Message>

  /** What a frame means to a receiver. */
  datatype Item = Received(message: Message) | Malformed

  function ItemOf(decode: Decoder, frame: Bytes): Item {
    match decode(frame)
    case None => Malformed
    case Some(m) => Received(m)
  }

  function Items(decode: Decoder, frames: seq<Bytes>): seq<Item> {
    if frames == [] then [] else [ItemOf(decode, frames[0])] + Items(decode, frames[1..])
  }

  lemma {:induction false} ItemsAppend(decode: Decoder, a: seq<Bytes>, b: seq<Bytes>)
    ensures Items(decode, a + b) == Items(decode, a) + Items(decode, b)
  {
    if a == [] {
      assert a + b == b;
    } else {
      assert (a + b)[1..] == a[1..] + b;
      ItemsAppend(decode, a[1..], b);
    }
  }

  datatype RxError = ParseFailed | TransportFailed

  type Answer = Poll<Result<Option<Message>, RxError>>

  /** `MsgReader`: the stream that is left, and what was read of it but not delivered. */
  datatype Reading = Reading(source: Source, buffer: Bytes)

  datatype PolledRead = PolledRead(reading: Reading, answer: Answer)

  predicate EndsLine(s: Bytes) {
    s == [] || s[|s| - 1] == NEWLINE
  }

  predicate HasLine(s: Bytes) {
    IndexOf(s, NEWLINE).Some?
  }

  function FrameAnswer(decode: Decoder, frame: Bytes): Answer {
    match decode(frame)
    case None => Ready(Err(ParseFailed))
    case Some(m) => Ready(Ok(Some(m)))
  }

  /** `poll_read_message`. The measure does not use the schedule: every read shortens the stream, and at its end the
      newline is pushed at most once, because the buffer then ends a line for good. */
  function PollReadMessage(r: Reading, decode: Decoder): PolledRead
    decreases |r.source.unread|, if EndsLine(r.buffer) then 0 else 1, |r.buffer|
  {
    match IndexOf(r.buffer, NEWLINE)
    case Some(ix) =>
      var next := r.(buffer := r.buffer[ix + 1..]);
      if ix == 0 then PollReadMessage(next, decode)
      else PolledRead(next, FrameAnswer(decode, r.buffer[..ix]))
    case None =>
      var read := Read(r.source);
      match read.answer
      case Pending => PolledRead(r.(source := read.source), Pending)
      case Ready(Err(_)) => PolledRead(r.(source := read.source), Ready(Err(TransportFailed)))
      case Ready(Ok(chunk)) =>
        if chunk != [] then PollReadMessage(Reading(read.source, r.buffer + chunk), decode)
        else if r.buffer == [] then PolledRead(r.(source := read.source), Ready(Ok(None)))
        else PollReadMessage(Reading(read.source, r.buffer + [NEWLINE]), decode)
  }

  /** One round of the poll. */
  lemma PollOnce(r: Reading, decode: Decoder)
    ensures PollReadMessage(r, decode) ==
              match IndexOf(r.buffer, NEWLINE)
              case Some(ix) =>
                var next := r.(buffer := r.buffer[ix + 1..]);
                if ix == 0 then PollReadMessage(next, decode)
                else PolledRead(next, FrameAnswer(decode, r.buffer[..ix]))
              case None =>
                var read := Read(r.source);
                match read.answer
                case Pending => PolledRead(r.(source := read.source), Pending)
                case Ready(Err(_)) => PolledRead(r.(source := read.source), Ready(Err(TransportFailed)))
                case Ready(Ok(chunk)) =>
                  if chunk != [] then PollReadMessage(Reading(read.source, r.buffer + chunk), decode)
                  else if r.buffer == [] then PolledRead(r.(source := read.source), Ready(Ok(None)))
                  else PollReadMessage(Reading(read.source, r.buffer + [NEWLINE]), decode)
  {
    hide IndexOf, Read, FrameAnswer;
  }

  /** Everything that is still to be delivered. */
  function Undelivered(r: Reading, decode: Decoder): seq<Item> {
    Items(decode, Frames(r.buffer + r.source.unread))
  }

  // ---------------------------------------------------------------------------------------------------------------

  lemma FramesAt(stream: Bytes, i: nat)
    requires i < |stream| && stream[i] == NEWLINE && forall j | 0 <= j < i :: stream[j] != NEWLINE
    ensures Frames(stream) == (if i == 0 then [] else [stream[..i]]) + Frames(stream[i + 1..])
  {
    IndexOfAt(stream, NEWLINE, i);
    hide IndexOf;
  }

  /** A newline in the buffer ends its first frame, whatever follows the buffer. */
  lemma FrameInBuffer(buffer: Bytes, unread: Bytes, i: nat)
    requires i < |buffer| && buffer[i] == NEWLINE && forall j | 0 <= j < i :: buffer[j] != NEWLINE
    ensures Frames(buffer + unread) == (if i == 0 then [] else [buffer[..i]]) + Frames(buffer[i + 1..] + unread)
  {
    hide Frames;
    assert (buffer + unread)[..i] == buffer[..i];
    assert (buffer + unread)[i + 1..] == buffer[i + 1..] + unread;
    FramesAt(buffer + unread, i);
  }

  /** The newline pushed at end-of-file changes no frame. */
  lemma EndRepair(buffer: Bytes)
    requires !HasLine(buffer) && buffer != []
    ensures Frames(buffer + [NEWLINE]) == Frames(buffer) == [buffer]
  {
    var repaired := buffer + [NEWLINE];
    assert repaired[..|buffer|] == buffer;
    assert repaired[|buffer| + 1..] == [];
    FramesAt(repaired, |buffer|);
  }

  function Size(r: Reading): nat {
    |r.buffer| + |r.source.unread|
  }

  /** One poll against the frames of the total stream: an answer is the first of them, a malformed frame included; the
      end is reported when there are none; anything else leaves them as they are, with no complete frame buffered. */
  ghost predicate Delivers(r: Reading, p: PolledRead, decode: Decoder) {
    var before, after := Undelivered(r, decode), Undelivered(p.reading, decode);
    match p.answer
    case Ready(Ok(Some(m))) => before == [Received(m)] + after && Size(p.reading) < Size(r)
    case Ready(Err(ParseFailed)) => before == [Malformed] + after && Size(p.reading) < Size(r)
    case Ready(Ok(None)) => before == after == [] && p.reading.buffer == [] && p.reading.source.unread == []
    case _ => before == after && !HasLine(p.reading.buffer)
  }

  lemma {:induction false} ReadDelivers(r: Reading, decode: Decoder)
    ensures Delivers(r, PollReadMessage(r, decode), decode)
    decreases |r.source.unread|, if EndsLine(r.buffer) then 0 else 1, |r.buffer|
  {
    match IndexOf(r.buffer, NEWLINE)
    case Some(ix) =>
      var next := r.(buffer := r.buffer[ix + 1..]);
      TakesLine(r, ix, decode);
      if ix == 0 {
        ReadDelivers(next, decode);
        hide Undelivered, HasLine;
        assert PollReadMessage(r, decode) == PollReadMessage(next, decode);
      }
    case None =>
      ReadsOn(r, decode);
      var read := Read(r.source);
      if read.answer.Ready? && read.answer.value.Ok? && read.answer.value.value != [] {
        var next := Reading(read.source, r.buffer + read.answer.value.value);
        ReadDelivers(next, decode);
        hide Undelivered, HasLine;
        assert PollReadMessage(r, decode) == PollReadMessage(next, decode);
      }
  }

  /** The first line of the buffer is a frame, or blank and then nothing. */
  lemma TakesLine(r: Reading, ix: nat, decode: Decoder)
    requires IndexOf(r.buffer, NEWLINE) == Some(ix)
    ensures var next := r.(buffer := r.buffer[ix + 1..]);
            if ix == 0 then Undelivered(r, decode) == Undelivered(next, decode)
            else Delivers(r, PollReadMessage(r, decode), decode)
  {
    var next := r.(buffer := r.buffer[ix + 1..]);
    FrameInBuffer(r.buffer, r.source.unread, ix);
    hide Frames, IndexOf;
    if ix == 0 {
      assert [] + Frames(next.buffer + r.source.unread) == Frames(next.buffer + r.source.unread);
    } else {
      FirstItem(decode, r.buffer[..ix], Frames(next.buffer + r.source.unread));
    }
  }

  lemma FirstItem(decode: Decoder, frame: Bytes, frames: seq<Bytes>)
    ensures Items(decode, [frame] + frames) == [ItemOf(decode, frame)] + Items(decode, frames)
  {
    assert ([frame] + frames)[1..] == frames;
  }

  /** With no newline buffered, the poll reads: what it read stays undelivered, unless the stream is over. */
  lemma ReadsOn(r: Reading, decode: Decoder)
    requires !HasLine(r.buffer)
    ensures var read := Read(r.source);
            match read.answer
            case Ready(Ok(chunk)) =>
              if chunk == [] then Delivers(r, PollReadMessage(r, decode), decode)
              else Undelivered(Reading(read.source, r.buffer + chunk), decode) == Undelivered(r, decode)
            case _ => Delivers(r, PollReadMessage(r, decode), decode)
  {
    var read := Read(r.source);
    if read.answer.Ready? && read.answer.value.Ok? {
      if read.answer.value.value != [] {
        hide Frames, PollReadMessage;
        var chunk := read.answer.value.value;
        assert r.buffer + (chunk + read.source.unread) == (r.buffer + chunk) + read.source.unread;
      } else {
        AtTheEnd(r, decode);
      }
    } else {
      hide Frames, Items;
    }
  }

  lemma AtTheEnd(r: Reading, decode: Decoder)
    requires !HasLine(r.buffer) && Read(r.source).answer == Ready(Ok([]))
    ensures Delivers(r, PollReadMessage(r, decode), decode)
  {
    if r.buffer != [] {
      RepairedRead(r, decode);
      hide Undelivered, PollReadMessage, HasLine, Read;
      var item := ItemOf(decode, r.buffer);
      assert [item] + [] == [item];
    } else {
      NothingLeft(r, decode);
      hide Undelivered;
    }
  }

  lemma NothingLeft(r: Reading, decode: Decoder)
    requires r.buffer == [] && r.source.unread == []
    ensures Undelivered(r, decode) == []
  {
    assert r.buffer + r.source.unread == [];
    NoFrames();
    hide Frames;
  }

  lemma NoFrames()
    ensures Frames([]) == []
  {
  }

  lemma RepairedRead(r: Reading, decode: Decoder)
    requires !HasLine(r.buffer) && r.buffer != [] && r.source.unread == []
    requires Read(r.source).answer == Ready(Ok([]))
    ensures PollReadMessage(r, decode)
         == PolledRead(Reading(Read(r.source).source, []), FrameAnswer(decode, r.buffer))
    ensures Undelivered(r, decode) == [ItemOf(decode, r.buffer)]
    ensures Undelivered(PollReadMessage(r, decode).reading, decode) == []
  {
    EndRepair(r.buffer);
    var repaired := r.buffer + [NEWLINE];
    assert repaired[..|r.buffer|] == r.buffer && repaired[|r.buffer| + 1..] == [];
    IndexOfAt(repaired, NEWLINE, |r.buffer|);
    assert r.buffer + r.source.unread == r.buffer;
    assert Items(decode, [r.buffer]) == [ItemOf(decode, r.buffer)];
  }

  // ---------------------------------------------------------------------------------------------------------------
  // Chunks do not matter
  // ---------------------------------------------------------------------------------------------------------------

  /** What an answer delivers. */
  function Delivered(a: Answer): seq<Item> {
    match a
    case Ready(Ok(Some(m))) => [Received(m)]
    case Ready(Err(ParseFailed)) => [Malformed]
    case _ => []
  }

  /** `n` polls in a row: the reader after them, what they delivered, and whether one of them reported the end. */
  datatype Polls = Polls(reading: Reading, delivered: seq<Item>, ended: bool)

  function PollTimes(r: Reading, decode: Decoder, n: nat): Polls
    decreases n
  {
    if n == 0 then Polls(r, [], false)
    else
      var p := PollReadMessage(r, decode);
      var rest := PollTimes(p.reading, decode, n - 1);
      Polls(rest.reading, Delivered(p.answer) + rest.delivered, rest.ended || p.answer == Ready(Ok(None)))
  }

  lemma {:induction false} PollsDeliver(r: Reading, decode: Decoder, n: nat)
    ensures var ps := PollTimes(r, decode, n);
            && Undelivered(r, decode) == ps.delivered + Undelivered(ps.reading, decode)
            && (ps.ended ==> ps.delivered == Undelivered(r, decode))
    decreases n
  {
    if n > 0 {
      var p := PollReadMessage(r, decode);
      AnswerDelivers(r, decode);
      PollsDeliver(p.reading, decode, n - 1);
      var rest := PollTimes(p.reading, decode, n - 1);
      Chain(Undelivered(r, decode), Delivered(p.answer), Undelivered(p.reading, decode),
            rest.delivered, Undelivered(rest.reading, decode));
      hide Undelivered, PollReadMessage, Delivered;
    }
  }

  lemma Chain<T>(u: seq<T>, d: seq<T>, u': seq<T>, d': seq<T>, u'': seq<T>)
    requires u == d + u' && u' == d' + u''
    ensures u == (d + d') + u''
    ensures u == [] ==> d + d' == []
    ensures d' == u' ==> d + d' == u
  {
  }

  lemma AnswerDelivers(r: Reading, decode: Decoder)
    ensures var p := PollReadMessage(r, decode);
            && Undelivered(r, decode) == Delivered(p.answer) + Undelivered(p.reading, decode)
            && (p.answer == Ready(Ok(None)) ==> Undelivered(r, decode) == [])
  {
    ReadDelivers(r, decode);
    hide Undelivered, PollReadMessage, HasLine;
    var after := Undelivered(PollReadMessage(r, decode).reading, decode);
    assert [] + after == after;
  }

  /** Two readers of one stream, whatever the chunks, the pending reads and the read errors, and however often each is
      polled: of the two sequences of deliveries one is a prefix of the other, both are prefixes of the frames of the
      stream, and whoever has seen the end has delivered all of them. */
  lemma ChunkingIsInvisible(
    stream: Bytes, first: seq<ReadAnswer>, second: seq<ReadAnswer>, decode: Decoder, n: nat, m: nat)
    ensures var a := PollTimes(Reading(Source(stream, first), []), decode, n);
            var b := PollTimes(Reading(Source(stream, second), []), decode, m);
            var all := Items(decode, Frames(stream));
            && a.delivered <= all && b.delivered <= all
            && (a.delivered <= b.delivered || b.delivered <= a.delivered)
            && (a.ended ==> a.delivered == all)
  {
    PollsDeliver(Reading(Source(stream, first), []), decode, n);
    PollsDeliver(Reading(Source(stream, second), []), decode, m);
    assert [] + stream == stream;
    PrefixesCompare(
      PollTimes(Reading(Source(stream, first), []), decode, n).delivered,
      PollTimes(Reading(Source(stream, second), []), decode, m).delivered,
      Items(decode, Frames(stream)));
  }

  lemma PrefixesCompare<T>(a: seq<T>, b: seq<T>, all: seq<T>)
    requires a <= all && b <= all
    ensures a <= b || b <= a
  {
    assert a == all[..|a|] && b == all[..|b|];
  }
}
