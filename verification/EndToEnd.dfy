/** From the senders of one side to the receivers of the other. */
module EndToEnd {
  import opened Basics
  import opened Connection
  import opened Source
  import opened Messages
  import opened TxSteps
  import opened Senders
  import opened Framing
  import opened RxSteps

  /** The bodies that messages are sent as. */
  function Bodies(ms: seq<Message>): seq<Bytes> {
    seq(|ms|, i requires 0 <= i < |ms| => Encode(ms[i]))
  }

  lemma BodiesAppend(a: seq<Message>, b: seq<Message>)
    ensures Bodies(a + b) == Bodies(a) + Bodies(b)
  {
    hide Encode;
  }

  /** What a receiver makes of a byte stream. */
  function Heard(stream: Bytes): seq<Item> {
    Items(Decode, Frames(stream))
  }

  // ---------------------------------------------------------------------------------------------------------------
  // The wire form, cut anywhere
  // ---------------------------------------------------------------------------------------------------------------

  lemma HeardFrame(m: Message, rest: Bytes)
    ensures Heard(Encode(m) + [NEWLINE] + rest) == [Received(m)] + Heard(rest)
  {
    var body := Encode(m);
    EncodeIsOneLine(m);
    DecodeEncode(m);
    hide Encode, Decode, Frames;
    OneFrame(body, rest);
    FirstItem(Decode, body, Frames(rest));
  }

  lemma OneFrame(body: Bytes, rest: Bytes)
    requires body != [] && NEWLINE !in body
    ensures Frames(body + [NEWLINE] + rest) == [body] + Frames(rest)
  {
    var stream := body + [NEWLINE] + rest;
    assert stream[..|body|] == body && stream[|body| + 1..] == rest;
    assert forall j | 0 <= j < |body| :: stream[j] == body[j] && body[j] in body;
    FramesAt(stream, |body|);
  }

  lemma HeardLine(line: Bytes)
    requires line != [] && forall j | 0 <= j < |line| :: line[j] != NEWLINE
    ensures Heard(line) == [ItemOf(Decode, line)]
  {
    hide Decode;
    assert IndexOf(line, NEWLINE).None?;
    assert Frames(line) == [line];
    hide Frames;
    FirstItem(Decode, line, []);
    assert [line] + [] == [line];
  }

  /** A piece of a body: nothing, a malformed frame, or the message if only the newline is missing. */
  lemma HeardPiece(m: Message, k: nat)
    requires k <= |Encode(m)|
    ensures Heard(Encode(m)[..k])
         == if k == 0 then [] else if k < |Encode(m)| then [Malformed] else [Received(m)]
  {
    hide Encode, Decode, Heard;
    var body := Encode(m);
    EncodeIsOneLine(m);
    var piece := body[..k];
    if k == 0 {
      HeardNothing();
    } else {
      assert forall j | 0 <= j < k :: piece[j] == body[j] && body[j] in body;
      HeardLine(piece);
      if k < |body| {
        CutBodyIsMalformed(m, k);
      } else {
        assert piece == body;
        DecodeEncode(m);
      }
    }
  }

  lemma HeardNothing()
    ensures Heard([]) == []
  {
    hide Decode;
    NoFrames();
  }

  /** The first `k` bytes of the wire form are heard as the first `j` messages, of which the last may lack its newline,
      and then one malformed frame if the cut is inside the next body. */
  ghost predicate HeardUpTo(ms: seq<Message>, k: nat, j: nat)
    requires k <= |Wire(Bodies(ms))|
  {
    && j <= |ms|
    && k + (if j > 0 then 1 else 0) >= |Wire(Bodies(ms[..j]))|
    && (j < |ms| ==> k + 1 < |Wire(Bodies(ms[..j + 1]))|)
    && Heard(Wire(Bodies(ms))[..k])
       == AsItems(ms[..j]) + if k > |Wire(Bodies(ms[..j]))| then [Malformed] else []
  }

  lemma WireCons(m: Message, ms: seq<Message>)
    ensures Wire(Bodies([m] + ms)) == Encode(m) + [NEWLINE] + Wire(Bodies(ms))
  {
    assert Bodies([m] + ms)[1..] == Bodies(ms);
  }

  lemma {:induction false} HeardCut(ms: seq<Message>, k: nat) returns (j: nat)
    requires k <= |Wire(Bodies(ms))|
    ensures HeardUpTo(ms, k, j)
  {
    hide Encode, Decode, Frames;
    var wire := Wire(Bodies(ms));
    if ms == [] {
      j := 0;
      assert wire[..k] == [] && Bodies(ms[..0]) == [];
      NoFrames();
    } else {
      var m, rest := ms[0], ms[1..];
      var body := Encode(m);
      assert ms == [m] + rest;
      WireCons(m, rest);
      assert ms[..1] == [m] + rest[..0];
      WireCons(m, rest[..0]);
      assert Bodies(rest[..0]) == [] && Wire(Bodies(ms[..1])) == body + [NEWLINE];
      assert Wire(Bodies(ms[..0])) == [];
      if k <= |body| {
        assert wire[..k] == body[..k];
        HeardPiece(m, k);
        EncodeIsOneLine(m);
        j := if k < |body| then 0 else 1;
        if j == 1 {
          SecondFrame(m, rest);
          assert AsItems(ms[..1]) == [Received(m)];
        }
      } else {
        var k' := k - |body| - 1;
        var j' := HeardCut(rest, k');
        j := j' + 1;
        HeardLater(m, rest, k', j');
        assert wire[..k] == body + [NEWLINE] + Wire(Bodies(rest))[..k'];
      }
    }
  }

  /** A frame is longer than its newline. */
  lemma SecondFrame(m: Message, rest: seq<Message>)
    ensures rest != [] ==> |Wire(Bodies(([m] + rest)[..2]))| > |Encode(m)| + 2
  {
    if rest != [] {
      assert ([m] + rest)[..2] == [m] + [rest[0]];
      WireCons(m, [rest[0]]);
      assert [rest[0]] == [rest[0]] + [];
      WireCons(rest[0], []);
      EncodeIsOneLine(rest[0]);
    }
  }

  lemma HeardLater(m: Message, rest: seq<Message>, k: nat, j: nat)
    requires k <= |Wire(Bodies(rest))| && HeardUpTo(rest, k, j)
    ensures var ms, k' := [m] + rest, |Encode(m)| + 1 + k;
            && k' <= |Wire(Bodies(ms))|
            && HeardUpTo(ms, k', j + 1)
  {
    var ms, k' := [m] + rest, |Encode(m)| + 1 + k;
    hide Encode, Decode, Heard;
    LaterLengths(m, rest, j);
    WireCons(m, rest);
    CutLater(Encode(m) + [NEWLINE], Wire(Bodies(rest)), k);
    HeardFrame(m, Wire(Bodies(rest))[..k]);
    assert AsItems(ms[..j + 1]) == [Received(m)] + AsItems(rest[..j]);
    hide Wire, Bodies, AsItems;
    var tail := if k > |Wire(Bodies(rest[..j]))| then [Malformed] else [];
    assert [Received(m)] + (AsItems(rest[..j]) + tail) == ([Received(m)] + AsItems(rest[..j])) + tail;
  }

  lemma CutLater(head: Bytes, tail: Bytes, k: nat)
    requires k <= |tail|
    ensures (head + tail)[..|head| + k] == head + tail[..k]
  {
  }

  lemma LaterLengths(m: Message, rest: seq<Message>, j: nat)
    requires j <= |rest|
    ensures |Wire(Bodies(([m] + rest)[..j + 1]))| == |Encode(m)| + 1 + |Wire(Bodies(rest[..j]))|
    ensures j < |rest| ==>
              |Wire(Bodies(([m] + rest)[..j + 2]))| == |Encode(m)| + 1 + |Wire(Bodies(rest[..j + 1]))|
  {
    hide Encode;
    assert ([m] + rest)[..j + 1] == [m] + rest[..j];
    WireCons(m, rest[..j]);
    if j < |rest| {
      assert ([m] + rest)[..j + 2] == [m] + rest[..j + 1];
      WireCons(m, rest[..j + 1]);
    }
  }

  /** The uncut wire form, and the wire form without its last newline, are heard as all the messages. */
  lemma HeardWhole(ms: seq<Message>, k: nat)
    requires k <= |Wire(Bodies(ms))| <= k + 1
    ensures Heard(Wire(Bodies(ms))[..k]) == AsItems(ms)
  {
    var j := HeardCut(ms, k);
    hide Encode, Heard;
    WirePrefix(Bodies(ms), j);
    assert Bodies(ms)[..j] == Bodies(ms[..j]);
    if j < |ms| {
      assert Bodies(ms)[..j + 1] == Bodies(ms[..j + 1]);
      WirePrefix(Bodies(ms), j + 1);
    }
    assert ms[..j] == ms;
    hide Wire, Bodies;
    assert AsItems(ms) + [] == AsItems(ms);
  }

  // ---------------------------------------------------------------------------------------------------------------
  // Senders that send messages
  // ---------------------------------------------------------------------------------------------------------------

  ghost predicate IsBody(body: Bytes) {
    exists m :: body == Encode(m)
  }

  ghost predicate AllEncoded(bodies: seq<Bytes>) {
    forall i | 0 <= i < |bodies| :: IsBody(bodies[i])
  }

  ghost predicate SendsMessages(s: System) {
    && AllEncoded(s.local.accepted)
    && forall i | 0 <= i < |s.senders| :: AllEncoded(s.senders[i].bodies)
  }

  lemma StillEncoded(accepted: seq<Bytes>, bodies: seq<Bytes>, lo: nat, hi: nat)
    requires AllEncoded(accepted) && AllEncoded(bodies) && lo <= hi <= |bodies|
    ensures AllEncoded(accepted + bodies[lo..hi])
  {
    hide IsBody;
  }

  /** What a turn accepts is a piece of the sender's bodies. */
  lemma TurnAppends(s: System, i: nat) returns (lo: nat, hi: nat)
    requires Inv(s) && CanRun(s, i)
    ensures lo <= hi <= |s.senders[i].bodies|
    ensures StepSender(s, i).local.accepted == s.local.accepted + s.senders[i].bodies[lo..hi]
  {
    var sender, t := s.senders[i], SendTurn(View(s), s.senders[i].future);
    TurnAccepts(View(s), sender);
    hide SendTurn, Ledger, Extends;
    lo, hi := TakenCount(sender), TakenCount(sender.(future := t.future));
    assert sender.bodies[lo..lo] == [] && s.local.accepted + [] == s.local.accepted;
  }

  lemma TurnKeepsBodies(s: System, i: nat)
    requires CanRun(s, i)
    ensures |StepSender(s, i).senders| == |s.senders|
    ensures forall k | 0 <= k < |s.senders| :: StepSender(s, i).senders[k].bodies == s.senders[k].bodies
  {
    hide SendTurn;
  }

  lemma TurnSendsMessages(s: System, i: nat)
    requires Inv(s) && SendsMessages(s) && CanRun(s, i)
    ensures SendsMessages(StepSender(s, i))
  {
    hide StepSender, AllEncoded, Inv;
    var lo, hi := TurnAppends(s, i);
    TurnKeepsBodies(s, i);
    StillEncoded(s.local.accepted, s.senders[i].bodies, lo, hi);
  }

  lemma StepSendsMessages(s: System, e: Event)
    requires Inv(s) && SendsMessages(s)
    requires e.Spawn? ==> AllEncoded(e.bodies)
    ensures SendsMessages(Step(s, e))
  {
    hide Encode, AllEncoded, StepSender;
    match e
    case SenderTurn(i) =>
      if CanRun(s, i) {
        TurnSendsMessages(s, i);
      }
    case CloserPoll =>
      if s.phase.Taken? {
        CloseKeeps(s.local, s.phase.stage);
      }
    case _ =>
  }

  lemma {:induction false} RunSendsMessages(s: System, events: seq<Event>)
    requires Inv(s) && SendsMessages(s)
    requires forall e <- events :: e.Spawn? ==> AllEncoded(e.bodies)
    ensures SendsMessages(Run(s, events))
    decreases events
  {
    if events != [] {
      hide Inv, SendsMessages, Step;
      assert events[0] in events;
      StepKeeps(s, events[0]);
      StepSendsMessages(s, events[0]);
      RunSendsMessages(Step(s, events[0]), events[1..]);
    }
  }

  /** The messages whose bodies these are. */
  ghost function MessagesOf(bodies: seq<Bytes>): (ms: seq<Message>)
    requires AllEncoded(bodies)
    ensures Bodies(ms) == bodies
  {
    hide Encode;
    if bodies == [] then []
    else
      var m :| bodies[0] == Encode(m);
      var ms := [m] + MessagesOf(bodies[1..]);
      assert forall i | 0 <= i < |bodies[1..]| :: bodies[1..][i] == bodies[i + 1];
      ms
  }

  /** What arrives at the other end of a connection: the bytes that were written, or fewer if it was cut. */
  ghost predicate Arrives(s: System, stream: Bytes) {
    stream <= s.local.sink.written
  }

  /** A receiver of a prefix of the wire form of some messages. */
  lemma HeardByPolls(ms: seq<Message>, stream: Bytes, schedule: seq<ReadAnswer>, n: nat) returns (j: nat)
    requires stream <= Wire(Bodies(ms))
    ensures var r := PollTimes(Reading(Source(stream, schedule), []), Decode, n);
            && HeardUpTo(ms, |stream|, j)
            && r.delivered <= Heard(stream) && (r.ended ==> r.delivered == Heard(stream))
            && (|stream| + 1 >= |Wire(Bodies(ms))| ==> Heard(stream) == AsItems(ms))
  {
    assert stream == Wire(Bodies(ms))[..|stream|];
    j := HeardCut(ms, |stream|);
    if |stream| + 1 >= |Wire(Bodies(ms))| {
      HeardWhole(ms, |stream|);
    }
    hide Decode, Encode, Frames, Wire, Bodies, PollTimes;
    ChunkingIsInvisible(stream, schedule, schedule, Decode, n, n);
  }

  lemma HeardByReceivers<M>(
    ms: seq<Message>, stream: Bytes, schedule: seq<ReadAnswer>, filters: seq<Filter<M>>, polls: seq<nat>, i: nat)
    requires stream <= Wire(Bodies(ms))
    requires PairwiseDisjoint(filters) && i < |filters|
    ensures var r := RunReceivers(NoReceiverYet(stream, schedule, |filters|), filters, polls, Decode);
            && r.had[i] <= Wanted(AsItems(ms), filters[i])
            && (r.ended[i] && |stream| + 1 >= |Wire(Bodies(ms))| ==> r.had[i] == Wanted(AsItems(ms), filters[i]))
  {
    assert stream == Wire(Bodies(ms))[..|stream|];
    var j := HeardCut(ms, |stream|);
    if |stream| + 1 >= |Wire(Bodies(ms))| {
      HeardWhole(ms, |stream|);
    }
    hide Decode, Encode, Frames, Wire, Bodies, RunReceivers;
    ScheduleIndependence(stream, schedule, filters, polls, Decode, i);
    WantedUpTo(ms, j, filters[i]);
  }

  /** A malformed frame at the end is wanted by nobody. */
  lemma WantedUpTo<M>(ms: seq<Message>, j: nat, from: Filter<M>)
    requires j <= |ms|
    ensures Wanted(AsItems(ms[..j]) + [], from) <= Wanted(AsItems(ms), from)
    ensures Wanted(AsItems(ms[..j]) + [Malformed], from) <= Wanted(AsItems(ms), from)
  {
    assert AsItems(ms) == AsItems(ms[..j]) + AsItems(ms[j..]);
    WantedAppend(AsItems(ms[..j]), AsItems(ms[j..]), from);
    WantedAppend(AsItems(ms[..j]), [Malformed], from);
    NothingWanted([Malformed], from);
    assert AsItems(ms[..j]) + [] == AsItems(ms[..j]);
    hide Wanted;
  }

  /** The messages that the senders of a run had accepted, and that the connection carries a prefix of their wire form. */
  lemma Accepted(
    writes: seq<WriteAnswer>, flushes: seq<FlushAnswer>, shutdowns: seq<FlushAnswer>, events: seq<Event>)
    returns (ms: seq<Message>)
    requires forall e <- events :: e.Spawn? ==> AllEncoded(e.bodies)
    ensures var s := Run(Init(writes, flushes, shutdowns), events);
            s.local.accepted == Bodies(ms) && s.local.sink.written <= Wire(Bodies(ms))
  {
    var s0 := Init(writes, flushes, shutdowns);
    RunKeeps(s0, events);
    RunSendsMessages(s0, events);
    ms := MessagesOf(Run(s0, events).local.accepted);
  }

  /** End to end. Whatever the senders, the schedule of their calls and the partial and failing writes; wherever the
      connection is cut; whatever the chunks in which it is read and however often the reader is polled: what is
      delivered is a prefix of what can be heard of the stream, and all of it once the reader has seen the end. What can
      be heard is a prefix of the accepted messages in acceptance order, up to the cut, and one malformed frame if the
      cut is inside a body; it is all the messages if everything arrived except perhaps the last newline. */
  lemma EndToEnd(
    writes: seq<WriteAnswer>, flushes: seq<FlushAnswer>, shutdowns: seq<FlushAnswer>, events: seq<Event>,
    stream: Bytes, schedule: seq<ReadAnswer>, n: nat)
    returns (ms: seq<Message>, j: nat)
    requires forall e <- events :: e.Spawn? ==> AllEncoded(e.bodies)
    requires Arrives(Run(Init(writes, flushes, shutdowns), events), stream)
    ensures var accepted := Run(Init(writes, flushes, shutdowns), events).local.accepted;
            var r := PollTimes(Reading(Source(stream, schedule), []), Decode, n);
            && accepted == Bodies(ms)
            && |stream| <= |Wire(accepted)| && HeardUpTo(ms, |stream|, j)
            && r.delivered <= Heard(stream) && (r.ended ==> r.delivered == Heard(stream))
            && (|stream| + 1 >= |Wire(accepted)| ==> Heard(stream) == AsItems(ms))
  {
    ms := Accepted(writes, flushes, shutdowns, events);
    hide Run, Wire, Bodies, PollTimes, Decode;
    j := HeardByPolls(ms, stream, schedule, n);
  }

  /** End to end through selective receive: each of any number of receivers with disjoint filters has been handed a
      prefix of what its filter takes out of the accepted messages; and all of it, once everything arrived and it was
      told the end. */
  lemma EndToEndReceivers<M>(
    writes: seq<WriteAnswer>, flushes: seq<FlushAnswer>, shutdowns: seq<FlushAnswer>, events: seq<Event>,
    stream: Bytes, schedule: seq<ReadAnswer>, filters: seq<Filter<M>>, polls: seq<nat>, i: nat)
    returns (ms: seq<Message>)
    requires forall e <- events :: e.Spawn? ==> AllEncoded(e.bodies)
    requires Arrives(Run(Init(writes, flushes, shutdowns), events), stream)
    requires PairwiseDisjoint(filters) && i < |filters|
    ensures var accepted := Run(Init(writes, flushes, shutdowns), events).local.accepted;
            var r := RunReceivers(NoReceiverYet(stream, schedule, |filters|), filters, polls, Decode);
            && accepted == Bodies(ms)
            && r.had[i] <= Wanted(AsItems(ms), filters[i])
            && (r.ended[i] && |stream| + 1 >= |Wire(accepted)| ==> r.had[i] == Wanted(AsItems(ms), filters[i]))
  {
    ms := Accepted(writes, flushes, shutdowns, events);
    hide Run, Wire, Bodies, RunReceivers, Decode;
    HeardByReceivers(ms, stream, schedule, filters, polls, i);
  }

  // ---------------------------------------------------------------------------------------------------------------
  // What a flush and a close promise the other end
  // ---------------------------------------------------------------------------------------------------------------

  lemma WireOfFirst(ms: seq<Message>, rest: Bytes)
    requires ms != []
    ensures Wire(Bodies(ms)) + rest == Encode(ms[0]) + [NEWLINE] + (Wire(Bodies(ms[1..])) + rest)
  {
    hide Wire, Bodies, Encode;
    WireCons(ms[0], ms[1..]);
    assert [ms[0]] + ms[1..] == ms;
    Associates(Encode(ms[0]) + [NEWLINE], Wire(Bodies(ms[1..])), rest);
  }

  lemma Associates(a: Bytes, b: Bytes, c: Bytes)
    ensures (a + b) + c == a + (b + c)
  {
  }

  lemma ItemsOfFirst(ms: seq<Message>, heard: seq<Item>)
    requires ms != []
    ensures AsItems(ms) + heard == [Received(ms[0])] + (AsItems(ms[1..]) + heard)
  {
  }

  lemma NoMessages()
    ensures Wire(Bodies([])) == [] && AsItems([]) == [] && Heard([]) == []
  {
    hide Encode, Decode;
  }

  /** Whatever follows the wire form of some messages, they are heard first. */
  lemma {:induction false} HeardFirst(ms: seq<Message>, rest: Bytes)
    ensures Heard(Wire(Bodies(ms)) + rest) == AsItems(ms) + Heard(rest)
  {
    hide Encode, Heard, Wire, Bodies, AsItems;
    if ms == [] {
      NoMessages();
      assert [] + rest == rest && [] + Heard(rest) == Heard(rest);
    } else {
      WireOfFirst(ms, rest);
      HeardFrame(ms[0], Wire(Bodies(ms[1..])) + rest);
      HeardFirst(ms[1..], rest);
      ItemsOfFirst(ms, Heard(rest));
    }
  }

  lemma EndedHasHeard(ms: seq<Message>, stream: Bytes, schedule: seq<ReadAnswer>, n: nat)
    requires Wire(Bodies(ms)) <= stream
    ensures var r := PollTimes(Reading(Source(stream, schedule), []), Decode, n);
            && (r.ended ==> AsItems(ms) <= r.delivered)
            && (stream == Wire(Bodies(ms)) ==> r.delivered <= AsItems(ms) && (r.ended ==> r.delivered == AsItems(ms)))
  {
    hide Encode, Decode, Frames, Items, Wire, Bodies, PollTimes, AsItems;
    var rest := stream[|Wire(Bodies(ms))|..];
    assert stream == Wire(Bodies(ms)) + rest;
    HeardFirst(ms, rest);
    ChunkingIsInvisible(stream, schedule, schedule, Decode, n, n);
    if rest == [] {
      NoMessages();
      assert AsItems(ms) + [] == AsItems(ms);
    }
  }

  /** When a flushing future has completed, what was accepted by then is heard at the other end, whatever is sent after it:
      a reader of what has arrived, if it is not cut before what the flush has covered, has had it all when it is told the
      end; and if nothing more arrives, it has had that and nothing else. */
  lemma FlushedIsHeard(
    writes: seq<WriteAnswer>, flushes: seq<FlushAnswer>, shutdowns: seq<FlushAnswer>, events: seq<Event>, i: nat,
    later: seq<Event>, stream: Bytes, schedule: seq<ReadAnswer>, n: nat)
    returns (ms: seq<Message>)
    requires forall e <- events :: e.Spawn? ==> AllEncoded(e.bodies)
    requires var s := Run(Init(writes, flushes, shutdowns), events);
             && CanRun(s, i) && s.senders[i].future.flush && StepSender(s, i).senders[i].status == Completed
             && Arrives(Run(StepSender(s, i), later), stream)
             && |Wire(StepSender(s, i).local.accepted)| <= |stream|
    ensures var s1 := StepSender(Run(Init(writes, flushes, shutdowns), events), i);
            var r := PollTimes(Reading(Source(stream, schedule), []), Decode, n);
            && s1.local.accepted == Bodies(ms)
            && (r.ended ==> AsItems(ms) <= r.delivered)
            && (stream == Wire(s1.local.accepted) ==> r.ended ==> r.delivered == AsItems(ms))
  {
    hide Run, Step, StepSender, PollTimes, Decode, Encode, Wire, Inv, SendsMessages;
    var s0 := Init(writes, flushes, shutdowns);
    var s := Run(s0, events);
    InitSendsMessages(writes, flushes, shutdowns);
    RunKeeps(s0, events);
    RunSendsMessages(s0, events);
    TurnSendsMessages(s, i);
    FlushMeansDelivered(s, i, later);
    ms := Sent(StepSender(s, i));
    EndedHasHeard(ms, stream, schedule, n);
  }

  lemma InitSendsMessages(writes: seq<WriteAnswer>, flushes: seq<FlushAnswer>, shutdowns: seq<FlushAnswer>)
    ensures Inv(Init(writes, flushes, shutdowns)) && SendsMessages(Init(writes, flushes, shutdowns))
  {
  }

  ghost function Sent(s: System): (ms: seq<Message>)
    requires SendsMessages(s)
    ensures Bodies(ms) == s.local.accepted
  {
    MessagesOf(s.local.accepted)
  }

  /** After a close that met no zero or failing write, an uncut stream that is read to its end is heard as exactly the
      accepted messages. */
  lemma ClosedIsHeard(
    writes: seq<WriteAnswer>, flushes: seq<FlushAnswer>, shutdowns: seq<FlushAnswer>, events: seq<Event>,
    schedule: seq<ReadAnswer>, n: nat)
    returns (ms: seq<Message>)
    requires forall e <- events :: e.Spawn? ==> AllEncoded(e.bodies)
    requires var s := Run(Init(writes, flushes, shutdowns), events);
             s.phase.Taken? && s.phase.stage.Returned? && !s.phase.stage.lost
    ensures var s := Run(Init(writes, flushes, shutdowns), events);
            var r := PollTimes(Reading(Source(s.local.sink.written, schedule), []), Decode, n);
            && s.local.accepted == Bodies(ms)
            && r.delivered <= AsItems(ms) && (r.ended ==> r.delivered == AsItems(ms))
  {
    hide Run, PollTimes, Decode, Encode, Wire;
    ms := Accepted(writes, flushes, shutdowns, events);
    ClosingIsComplete(writes, flushes, shutdowns, events);
    EndedHasHeard(ms, Wire(Bodies(ms)), schedule, n);
  }

  /** The same for selective receivers: each that was told the end has been handed all that its filter takes. */
  lemma ClosedIsReceived<M>(
    writes: seq<WriteAnswer>, flushes: seq<FlushAnswer>, shutdowns: seq<FlushAnswer>, events: seq<Event>,
    schedule: seq<ReadAnswer>, filters: seq<Filter<M>>, polls: seq<nat>, i: nat)
    returns (ms: seq<Message>)
    requires forall e <- events :: e.Spawn? ==> AllEncoded(e.bodies)
    requires var s := Run(Init(writes, flushes, shutdowns), events);
             s.phase.Taken? && s.phase.stage.Returned? && !s.phase.stage.lost
    requires PairwiseDisjoint(filters) && i < |filters|
    ensures var s := Run(Init(writes, flushes, shutdowns), events);
            var stream := s.local.sink.written;
            var r := RunReceivers(NoReceiverYet(stream, schedule, |filters|), filters, polls, Decode);
            && s.local.accepted == Bodies(ms)
            && r.had[i] <= Wanted(AsItems(ms), filters[i])
            && (r.ended[i] ==> r.had[i] == Wanted(AsItems(ms), filters[i]))
  {
    hide Run, RunReceivers, Decode, Encode, Wire, Wanted;
    ms := Accepted(writes, flushes, shutdowns, events);
    ClosingIsComplete(writes, flushes, shutdowns, events);
    HeardByReceivers(ms, Wire(Bodies(ms)), schedule, filters, polls, i);
  }
}