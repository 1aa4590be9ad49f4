/** What the calls of the receive side answer, told by what the reader has answered: they are kept waiting by a read that is
    not ready and fail by one that fails, and for no other reason. */
module RxOutcomes {
  import opened Basics
  import opened Scripts
  import opened Source
  import opened Messages
  import opened Framing
  import opened RxSteps

  /** Which state a poll of the reader goes on with, unless it ends at once. */
  function GoesOn(r: Reading): Option<Reading> {
    match IndexOf(r.buffer, NEWLINE)
    case Some(ix) => if ix == 0 then Some(r.(buffer := r.buffer[1..])) else None
    case None =>
      var read := Read(r.source);
      match read.answer
      case Ready(Ok(chunk)) =>
        if chunk != [] then Some(Reading(read.source, r.buffer + chunk))
        else if r.buffer != [] then Some(Reading(read.source, r.buffer + [NEWLINE]))
        else None
      case _ => None
  }

  lemma GoesOnLess(r: Reading)
    requires GoesOn(r).Some?
    ensures var next := GoesOn(r).value;
            || |next.source.unread| < |r.source.unread|
            || (&& |next.source.unread| == |r.source.unread|
                && (|| (EndsLine(next.buffer) && !EndsLine(r.buffer))
                    || (EndsLine(next.buffer) == EndsLine(r.buffer) && |next.buffer| < |r.buffer|)))
  {
  }

  predicate FailsToRead<M>(answer: Poll<Result<Option<M>, RxError>>) {
    answer == Ready(Err(TransportFailed))
  }

  /** And the end is told only by a read. */
  ghost predicate ReadingReads(r: Reading, p: PolledRead) {
    && Reads(r.source.schedule, p.reading.source.schedule, p.answer.Pending?, p.answer == Ready(Err(TransportFailed)))
    && (p.answer == Ready(Ok(None)) ==> Used(r.source.schedule, p.reading.source.schedule) != [])
  }

  lemma GoesOnReads(r: Reading, decode: Decoder)
    requires GoesOn(r).Some?
    ensures PollReadMessage(r, decode) == PollReadMessage(GoesOn(r).value, decode)
    ensures Reads(r.source.schedule, GoesOn(r).value.source.schedule, false, false)
  {
    hide IndexOf, Reads;
    ReadsNothing(r.source.schedule);
    if r.source.schedule != [] {
      ReadsOne(r.source.schedule);
    }
  }

  lemma EndsReads(r: Reading, decode: Decoder)
    requires GoesOn(r).None?
    ensures ReadingReads(r, PollReadMessage(r, decode))
  {
    hide IndexOf, Reads;
    ReadsNothing(r.source.schedule);
    if r.source.schedule != [] {
      ReadsOne(r.source.schedule);
      UsedOne(r.source.schedule);
    }
    hide Used, Remains;
  }

  lemma {:induction false} ReadOutcome(r: Reading, decode: Decoder)
    ensures ReadingReads(r, PollReadMessage(r, decode))
    decreases |r.source.unread|, if EndsLine(r.buffer) then 0 else 1, |r.buffer|
  {
    hide PollReadMessage, GoesOn, EndsLine, Reads, Used;
    if GoesOn(r).Some? {
      var next := GoesOn(r).value;
      GoesOnLess(r);
      GoesOnReads(r, decode);
      ReadOutcome(next, decode);
      var p := PollReadMessage(next, decode);
      ReadsMore(r.source.schedule, next.source.schedule, p.reading.source.schedule,
                p.answer.Pending?, p.answer == Ready(Err(TransportFailed)));
    } else {
      EndsReads(r, decode);
    }
  }

  ghost predicate RecvReads<M>(l: Local, p: PolledRecv<M>) {
    && Reads(l.reading.source.schedule, p.local.reading.source.schedule, p.answer.Pending?, FailsToRead(p.answer))
    && (p.answer == Ready(Ok(None)) ==> Used(l.reading.source.schedule, p.local.reading.source.schedule) != [])
  }

  lemma {:induction false} ReceiveOutcome<M>(l: Local, from: Filter<M>, decode: Decoder)
    ensures RecvReads(l, ReceiveNew(l, from, decode))
    decreases Size(l.reading)
  {
    hide PollReadMessage, Reads, Used;
    ReadDelivers(l.reading, decode);
    ReadOutcome(l.reading, decode);
    var p := PollReadMessage(l.reading, decode);
    if p.answer.Ready? && p.answer.value.Ok? && p.answer.value.value.Some? && from(p.answer.value.value.value).Err? {
      var next := Local(p.reading, l.parked + [from(p.answer.value.value.value).error]);
      ReceiveOutcome(next, from, decode);
      var q := ReceiveNew(next, from, decode);
      ReadsMore(l.reading.source.schedule, p.reading.source.schedule, q.local.reading.source.schedule,
                q.answer.Pending?, FailsToRead(q.answer));
    }
  }

  /** A receive fails to read exactly if a read has failed, and is kept waiting only by a read that is not ready. What else it
      may answer, and when, is said by `Selects`. */
  lemma RecvOutcome<M>(l: Local, from: Filter<M>, decode: Decoder)
    ensures RecvReads(l, PollRecv(l, from, decode))
  {
    hide ReceiveNew, Reads, Used;
    ReadsNothing(l.reading.source.schedule);
    ReceiveOutcome(l, from, decode);
  }
}
