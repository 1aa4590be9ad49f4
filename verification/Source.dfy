/** The read half: an `AsyncRead` with a total stream of bytes that ends in end-of-file, handed out in chunks that the
    environment chooses. The schedule is arbitrary; an exhausted schedule answers that nothing is ready. */
module Source {
  import opened Basics
  import opened Scripts

  /** `Gives(n)` hands out `n + 1` bytes, or as many as there are: none at all means end-of-file. */
  datatype ReadAnswer = Gives(n: nat) | ReadNotReady | ReadBreaks

  datatype ReadError = ReadFailed

  datatype Source = Source(unread: Bytes, schedule: seq<ReadAnswer>)

  datatype ReadResult = ReadResult(source: Source, answer: Poll<Result<Bytes, ReadError>>)

  /** `poll_read`: the next bytes of the stream, empty exactly at its end. */
  function Read(s: Source): (r: ReadResult)
    ensures r.answer.Ready? && r.answer.value.Ok? ==>
              && s.unread == r.answer.value.value + r.source.unread
              && (r.answer.value.value == [] <==> s.unread == [])
    ensures !(r.answer.Ready? && r.answer.value.Ok?) ==> r.source.unread == s.unread
  {
    if s.schedule == [] then ReadResult(s, Pending)
    else
      var next := s.(schedule := s.schedule[1..]);
      match s.schedule[0]
      case ReadNotReady => ReadResult(next, Pending)
      case ReadBreaks => ReadResult(next, Ready(Err(ReadFailed)))
      case Gives(n) =>
        var k := Min(n + 1, |s.unread|);
        ReadResult(next.(unread := s.unread[k..]), Ready(Ok(s.unread[..k])))
  }

  // ---------------------------------------------------------------------------------------------------------------
  // What the reader has answered
  // ---------------------------------------------------------------------------------------------------------------

  predicate AllGive(used: seq<ReadAnswer>) {
    forall i | 0 <= i < |used| :: used[i].Gives?
  }

  predicate EndsWith(used: seq<ReadAnswer>, answer: ReadAnswer) {
    used != [] && used[|used| - 1] == answer
  }

  /** A call that reads has failed exactly if its last read has, and is kept waiting only by a last read that is not ready,
      or for want of a further answer; otherwise all its reads have given something. */
  ghost predicate Reads(before: seq<ReadAnswer>, after: seq<ReadAnswer>, waits: bool, fails: bool) {
    var used := Used(before, after);
    && Remains(before, after)
    && (used != [] ==> AllGive(used[..|used| - 1]))
    && (fails <==> EndsWith(used, ReadBreaks))
    && (EndsWith(used, ReadNotReady) ==> waits)
    && (waits ==> EndsWith(used, ReadNotReady) || (AllGive(used) && after == []))
  }

  lemma ReadsNothing(schedule: seq<ReadAnswer>)
    ensures Reads(schedule, schedule, false, false)
    ensures schedule == [] ==> Reads(schedule, schedule, true, false)
  {
    UsedNothing(schedule);
  }

  lemma ReadsOne(schedule: seq<ReadAnswer>)
    requires schedule != []
    ensures Reads(schedule, schedule[1..], schedule[0] == ReadNotReady, schedule[0] == ReadBreaks)
  {
    UsedOne(schedule);
  }

  /** After reads that have given something the call goes on. */
  lemma ReadsMore(a: seq<ReadAnswer>, b: seq<ReadAnswer>, c: seq<ReadAnswer>, waits: bool, fails: bool)
    requires Reads(a, b, false, false) && Reads(b, c, waits, fails)
    ensures Reads(a, c, waits, fails)
    ensures Used(b, c) != [] ==> Used(a, c) != []
  {
    UsedAppend(a, b, c);
    hide Used, Remains;
    var u, v := Used(a, b), Used(b, c);
    GiveAll(u);
    if v == [] {
      assert u + v == u;
    } else {
      assert (u + v)[..|u + v| - 1] == u + v[..|v| - 1];
    }
  }

  lemma GiveAll(used: seq<ReadAnswer>)
    requires used != [] ==> AllGive(used[..|used| - 1])
    requires !EndsWith(used, ReadBreaks) && !EndsWith(used, ReadNotReady)
    ensures AllGive(used)
  {
    if used != [] {
      assert forall i | 0 <= i < |used| - 1 :: used[i] == used[..|used| - 1][i];
    }
  }

  /** An `AsyncRead` object. */
  class Reader {
    var unread: Bytes
    var schedule: seq<ReadAnswer>

    ghost function State(): Source
      reads this
    {
      Source(unread, schedule)
    }

    constructor (unread: Bytes, schedule: seq<ReadAnswer>)
      ensures State() == Source(unread, schedule)
    {
      this.unread, this.schedule := unread, schedule;
    }

    method PollRead() returns (r: Poll<Result<Bytes, ReadError>>)
      modifies this
      ensures ReadResult(State(), r) == Read(old(State()))
    {
      if schedule == [] {
        return Pending;
      }
      var answer := schedule[0];
      schedule := schedule[1..];
      match answer
      case ReadNotReady => r := Pending;
      case ReadBreaks => r := Ready(Err(ReadFailed));
      case Gives(n) =>
        var k := Min(n + 1, |unread|);
        r := Ready(Ok(unread[..k]));
        unread := unread[k..];
    }
  }
}
