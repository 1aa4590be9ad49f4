/** `read_line_or_chunk`: the output of the child, cut into lines or handed on as it comes. */
module LineReader {
  import opened Basics
  import opened Source

  /** The child's stream, and what was read of it but not handed on. A cancelled call leaves nothing else behind. */
  datatype Splitting = Splitting(source: Source, buffer: Bytes)

  type Piece = Poll<Result<Option<Bytes>, ReadError>>

  datatype PolledPiece = PolledPiece(rest: Splitting, piece: Piece)

  function PollLine(s: Splitting): PolledPiece
    decreases |s.source.unread|
  {
    match IndexOf(s.buffer, NEWLINE)
    case Some(pos) => PolledPiece(s.(buffer := s.buffer[pos + 1..]), Ready(Ok(Some(s.buffer[..pos + 1]))))
    case None =>
      var read := Read(s.source);
      match read.answer
      case Pending => PolledPiece(s.(source := read.source), Pending)
      case Ready(Err(e)) => PolledPiece(s.(source := read.source), Ready(Err(e)))
      case Ready(Ok(chunk)) =>
        if chunk != [] then PollLine(Splitting(read.source, s.buffer + chunk))
        else if s.buffer == [] then PolledPiece(s.(source := read.source), Ready(Ok(None)))
        else PolledPiece(Splitting(read.source, []), Ready(Ok(Some(s.buffer))))
  }

  function PollChunk(s: Splitting): PolledPiece {
    var read := Read(s.source);
    match read.answer
    case Pending => PolledPiece(s.(source := read.source), Pending)
    case Ready(Err(e)) => PolledPiece(s.(source := read.source), Ready(Err(e)))
    case Ready(Ok(chunk)) =>
      var data := s.buffer + chunk;
      if data == [] then PolledPiece(s.(source := read.source), Ready(Ok(None)))
      else PolledPiece(Splitting(read.source, []), Ready(Ok(Some(data))))
  }

  function PollPiece(s: Splitting, lineBuffered: bool): PolledPiece {
    if lineBuffered then PollLine(s) else PollChunk(s)
  }

  function Ahead(s: Splitting): Bytes {
    s.buffer + s.source.unread
  }

  /** The stream cut after every newline. */
  function Lines(stream: Bytes): seq<Bytes>
    decreases |stream|
  {
    match IndexOf(stream, NEWLINE)
    case None => if stream == [] then [] else [stream]
    case Some(i) => [stream[..i + 1]] + Lines(stream[i + 1..])
  }

  // ---------------------------------------------------------------------------------------------------------------

  lemma LineInBuffer(buffer: Bytes, unread: Bytes, i: nat)
    requires IndexOf(buffer, NEWLINE) == Some(i)
    ensures Lines(buffer + unread) == [buffer[..i + 1]] + Lines(buffer[i + 1..] + unread)
  {
    var stream := buffer + unread;
    assert stream[..i + 1] == buffer[..i + 1] && stream[i + 1..] == buffer[i + 1..] + unread;
    IndexOfAt(stream, NEWLINE, i);
  }

  /** One call: a piece is never empty, and is the front of what is ahead; in line mode it is the first line of it. The
      end is reported when nothing is ahead, and otherwise nothing is lost. */
  ghost predicate Splits(s: Splitting, p: PolledPiece, lineBuffered: bool) {
    match p.piece
    case Ready(Ok(Some(data))) =>
      && data != [] && Ahead(s) == data + Ahead(p.rest)
      && (lineBuffered ==> Lines(Ahead(s)) == [data] + Lines(Ahead(p.rest)))
    case Ready(Ok(None)) => Ahead(s) == [] && p.rest.buffer == []
    case _ => Ahead(p.rest) == Ahead(s)
  }

  /** What a read brought, if it brought anything. */
  predicate Brings(read: ReadResult) {
    read.answer.Ready? && read.answer.value.Ok? && read.answer.value.value != []
  }

  lemma AheadCut(s: Splitting, n: nat)
    requires n <= |s.buffer|
    ensures Ahead(s) == s.buffer[..n] + Ahead(s.(buffer := s.buffer[n..]))
  {
    assert s.buffer + s.source.unread == s.buffer[..n] + (s.buffer[n..] + s.source.unread);
  }

  lemma LineFromBuffer(s: Splitting)
    requires IndexOf(s.buffer, NEWLINE).Some?
    ensures Splits(s, PollLine(s), true)
  {
    var pos := IndexOf(s.buffer, NEWLINE).value;
    LineInBuffer(s.buffer, s.source.unread, pos);
    AheadCut(s, pos + 1);
    hide Lines, IndexOf, Read;
  }

  lemma LastLine(stream: Bytes)
    requires IndexOf(stream, NEWLINE).None?
    ensures Lines(stream) == if stream == [] then [] else [stream]
  {
    hide IndexOf;
  }

  /** A read that brings nothing: not ready, failed, or at the end. */
  function LineWithout(s: Splitting, read: ReadResult): PolledPiece {
    match read.answer
    case Pending => PolledPiece(s.(source := read.source), Pending)
    case Ready(Err(e)) => PolledPiece(s.(source := read.source), Ready(Err(e)))
    case Ready(Ok(_)) =>
      if s.buffer == [] then PolledPiece(s.(source := read.source), Ready(Ok(None)))
      else PolledPiece(Splitting(read.source, []), Ready(Ok(Some(s.buffer))))
  }

  lemma LineAtLast(s: Splitting)
    requires IndexOf(s.buffer, NEWLINE).None? && !Brings(Read(s.source))
    ensures PollLine(s) == LineWithout(s, Read(s.source))
  {
    hide IndexOf, Read;
  }

  lemma LineAtLastSplits(s: Splitting)
    requires IndexOf(s.buffer, NEWLINE).None? && !Brings(Read(s.source))
    ensures Splits(s, LineWithout(s, Read(s.source)), true)
  {
    hide IndexOf, Lines, PollLine, Read;
    var read := Read(s.source);
    if read.answer.Ready? && read.answer.value.Ok? {
      assert s.source.unread == [] && read.source.unread == [];
      assert Ahead(s) == s.buffer;
      LastLine(s.buffer);
      LastLine([]);
      assert s.buffer + [] == s.buffer && [s.buffer] + [] == [s.buffer];
    }
  }

  lemma {:induction false} LineSplits(s: Splitting)
    ensures Splits(s, PollLine(s), true)
    decreases |s.source.unread|
  {
    var read := Read(s.source);
    if IndexOf(s.buffer, NEWLINE).Some? {
      LineFromBuffer(s);
    } else if !Brings(read) {
      hide PollLine, Lines, IndexOf, LineWithout, Brings;
      LineAtLast(s);
      LineAtLastSplits(s);
    } else {
      var next := Splitting(read.source, s.buffer + read.answer.value.value);
      assert PollLine(s) == PollLine(next);
      hide PollLine, Lines, IndexOf;
      assert Ahead(next) == Ahead(s);
      LineSplits(next);
    }
  }

  lemma PieceSplits(s: Splitting, lineBuffered: bool)
    ensures Splits(s, PollPiece(s, lineBuffered), lineBuffered)
  {
    if lineBuffered {
      LineSplits(s);
    } else {
      var read := Read(s.source);
      if read.answer.Ready? && read.answer.value.Ok? {
        var chunk := read.answer.value.value;
        assert s.buffer + (chunk + read.source.unread) == (s.buffer + chunk) + read.source.unread;
      }
    }
  }

  lemma {:induction false} LinesConcat(stream: Bytes)
    ensures Concat(Lines(stream)) == stream
    decreases |stream|
  {
    match IndexOf(stream, NEWLINE)
    case None =>
      if stream != [] {
        assert Concat([stream]) == stream;
      }
    case Some(i) =>
      LinesConcat(stream[i + 1..]);
      hide IndexOf;
      var rest := Lines(stream[i + 1..]);
      assert ([stream[..i + 1]] + rest)[1..] == rest;
      assert stream[..i + 1] + stream[i + 1..] == stream;
  }

  /** No newline but at the end. */
  predicate IsLine(line: Bytes) {
    line != [] && forall k | 0 <= k < |line| - 1 :: line[k] != NEWLINE
  }

  /** A line ends with its only newline; only the last may lack it. */
  lemma {:induction false} LinesAreLines(stream: Bytes, i: nat)
    requires i < |Lines(stream)|
    ensures IsLine(Lines(stream)[i])
    ensures i < |Lines(stream)| - 1 ==> Lines(stream)[i][|Lines(stream)[i]| - 1] == NEWLINE
    decreases |stream|
  {
    match IndexOf(stream, NEWLINE)
    case None =>
    case Some(pos) =>
      if i > 0 {
        LinesAreLines(stream[pos + 1..], i - 1);
      }
  }

  // ---------------------------------------------------------------------------------------------------------------
  // Repeated calls
  // ---------------------------------------------------------------------------------------------------------------

  datatype Pieces = Pieces(rest: Splitting, pieces: seq<Bytes>, ended: bool)

  function PieceOf(p: Piece): seq<Bytes> {
    match p
    case Ready(Ok(Some(data))) => [data]
    case _ => []
  }

  function PollPieces(s: Splitting, lineBuffered: bool, n: nat): Pieces
    decreases n
  {
    if n == 0 then Pieces(s, [], false)
    else
      var p := PollPiece(s, lineBuffered);
      var more := PollPieces(p.rest, lineBuffered, n - 1);
      Pieces(more.rest, PieceOf(p.piece) + more.pieces, more.ended || p.piece == Ready(Ok(None)))
  }

  /** Some pieces lead from one state to another. */
  ghost predicate Leads(s: Splitting, pieces: seq<Bytes>, rest: Splitting, lineBuffered: bool) {
    && Ahead(s) == Concat(pieces) + Ahead(rest)
    && (forall i | 0 <= i < |pieces| :: pieces[i] != [])
    && (lineBuffered ==> Lines(Ahead(s)) == pieces + Lines(Ahead(rest)))
  }

  lemma LeadsNowhere(s: Splitting, rest: Splitting, lineBuffered: bool)
    requires Ahead(s) == Ahead(rest)
    ensures Leads(s, [], rest, lineBuffered)
  {
    assert Concat([]) + Ahead(s) == Ahead(s);
    assert [] + Lines(Ahead(s)) == Lines(Ahead(s));
  }

  lemma LeadsOn(s: Splitting, a: seq<Bytes>, mid: Splitting, b: seq<Bytes>, rest: Splitting, lineBuffered: bool)
    requires Leads(s, a, mid, lineBuffered) && Leads(mid, b, rest, lineBuffered)
    ensures Leads(s, a + b, rest, lineBuffered)
  {
    ConcatAppend(a, b);
    hide Ahead, Lines, Concat;
    assert Concat(a) + (Concat(b) + Ahead(rest)) == (Concat(a) + Concat(b)) + Ahead(rest);
    assert a + (b + Lines(Ahead(rest))) == (a + b) + Lines(Ahead(rest));
  }

  lemma PieceLeads(s: Splitting, lineBuffered: bool)
    ensures var p := PollPiece(s, lineBuffered);
            && Leads(s, PieceOf(p.piece), p.rest, lineBuffered)
            && (p.piece == Ready(Ok(None)) ==> Ahead(p.rest) == [])
  {
    PieceSplits(s, lineBuffered);
    var p := PollPiece(s, lineBuffered);
    hide PollPiece, Lines;
    match p.piece
    case Ready(Ok(Some(data))) => assert Concat([data]) == data;
    case Ready(Ok(None)) =>
      PollEnd(s, lineBuffered);
      LeadsNowhere(s, p.rest, lineBuffered);
    case _ => LeadsNowhere(s, p.rest, lineBuffered);
  }

  lemma PollEnd(s: Splitting, lineBuffered: bool)
    requires Ahead(s) == []
    ensures Ahead(PollPiece(s, lineBuffered).rest) == []
  {
  }

  lemma {:induction false} PiecesLead(s: Splitting, lineBuffered: bool, n: nat)
    ensures var ps := PollPieces(s, lineBuffered, n);
            && Leads(s, ps.pieces, ps.rest, lineBuffered)
            && (ps.ended ==> Ahead(ps.rest) == [])
    decreases n
  {
    if n == 0 {
      LeadsNowhere(s, s, lineBuffered);
    } else {
      var p := PollPiece(s, lineBuffered);
      PieceLeads(s, lineBuffered);
      PiecesLead(p.rest, lineBuffered, n - 1);
      if p.piece == Ready(Ok(None)) {
        NothingAhead(p.rest, lineBuffered, n - 1);
      }
      hide PollPiece, Leads, Ahead;
      var more := PollPieces(p.rest, lineBuffered, n - 1);
      LeadsOn(s, PieceOf(p.piece), p.rest, more.pieces, more.rest, lineBuffered);
    }
  }

  /** The end stays the end. */
  lemma {:induction false} NothingAhead(s: Splitting, lineBuffered: bool, n: nat)
    requires Ahead(s) == []
    ensures Ahead(PollPieces(s, lineBuffered, n).rest) == []
    decreases n
  {
    if n > 0 {
      PollEnd(s, lineBuffered);
      NothingAhead(PollPiece(s, lineBuffered).rest, lineBuffered, n - 1);
    }
  }

  /** The pieces of a stream, however it is read in chunks and however often a call is cancelled while it waits: none is
      empty, they concatenate to a prefix of the stream, and to all of it when the end has been reported. In line mode
      they are the lines of the stream, so they depend on nothing but the stream. */
  lemma PiecesOfStream(stream: Bytes, schedule: seq<ReadAnswer>, lineBuffered: bool, n: nat)
    ensures var ps := PollPieces(Splitting(Source(stream, schedule), []), lineBuffered, n);
            && (forall i | 0 <= i < |ps.pieces| :: ps.pieces[i] != [])
            && Concat(ps.pieces) <= stream
            && (ps.ended ==> Concat(ps.pieces) == stream)
            && (lineBuffered ==> ps.pieces <= Lines(stream) && (ps.ended ==> ps.pieces == Lines(stream)))
  {
    var s := Splitting(Source(stream, schedule), []);
    assert Ahead(s) == stream;
    PiecesLead(s, lineBuffered, n);
    assert Lines([]) == [];
  }

  // ---------------------------------------------------------------------------------------------------------------
  // Waiting and failing
  // ---------------------------------------------------------------------------------------------------------------

  ghost predicate PieceReads(s: Splitting, p: PolledPiece) {
    Reads(s.source.schedule, p.rest.source.schedule, p.piece.Pending?, p.piece.Ready? && p.piece.value.Err?)
  }

  lemma ReadReads(s: Source)
    ensures var read := Read(s);
            Reads(s.schedule, read.source.schedule, read.answer.Pending?, read.answer.Ready? && read.answer.value.Err?)
  {
    if s.schedule == [] {
      ReadsNothing(s.schedule);
    } else {
      ReadsOne(s.schedule);
    }
    hide Reads;
  }

  lemma {:induction false} LineReads(s: Splitting)
    ensures PieceReads(s, PollLine(s))
    decreases |s.source.unread|
  {
    hide Reads;
    var read := Read(s.source);
    ReadReads(s.source);
    if IndexOf(s.buffer, NEWLINE).Some? {
      ReadsNothing(s.source.schedule);
    } else if !Brings(read) {
      LineAtLast(s);
      hide PollLine, IndexOf;
    } else {
      var next := Splitting(read.source, s.buffer + read.answer.value.value);
      assert PollLine(s) == PollLine(next);
      hide PollLine, IndexOf;
      LineReads(next);
      ReadsMore(s.source.schedule, read.source.schedule, PollLine(next).rest.source.schedule,
                PollLine(next).piece.Pending?, PollLine(next).piece.Ready? && PollLine(next).piece.value.Err?);
    }
  }

  /** A call fails exactly if a read has failed, and is kept waiting only by a read that is not ready. In chunk mode it reads
      once, and hands on what that has brought behind what was left. */
  lemma PieceOutcome(s: Splitting, lineBuffered: bool)
    ensures PieceReads(s, PollPiece(s, lineBuffered))
    ensures var p := PollPiece(s, lineBuffered);
            !lineBuffered ==>
              && p.rest.source == Read(s.source).source
              && (p.piece.Pending? <==> Read(s.source).answer.Pending?)
              && (forall data :: p.piece == Ready(Ok(Some(data))) ==>
                    Read(s.source).answer == Ready(Ok(data[|s.buffer|..])) && s.buffer <= data)
  {
    hide Reads;
    if lineBuffered {
      hide PollLine;
      LineReads(s);
    } else {
      ReadReads(s.source);
      hide Read;
    }
  }

  class OutputReader {
    const source: Reader
    var buffer: Bytes

    ghost function State(): Splitting
      reads this, source
    {
      Splitting(source.State(), buffer)
    }

    constructor (source: Reader)
      ensures this.source == source && State() == Splitting(source.State(), [])
    {
      this.source := source;
      buffer := [];
    }

    method ReadLineOrChunk(lineBuffered: bool) returns (r: Piece)
      modifies this, source
      ensures PolledPiece(State(), r) == PollPiece(old(State()), lineBuffered)
    {
      if lineBuffered {
        hide IndexOf;
        while true
          invariant PollLine(State()) == PollLine(old(State()))
          decreases |source.unread|
        {
          match IndexOf(buffer, NEWLINE) {
            case Some(pos) =>
              var data := buffer[..pos + 1];
              buffer := buffer[pos + 1..];
              return Ready(Ok(Some(data)));
            case None =>
              var read := source.PollRead();
              match read {
                case Pending => return Pending;
                case Ready(Err(e)) => return Ready(Err(e));
                case Ready(Ok(chunk)) =>
                  if chunk != [] {
                    buffer := buffer + chunk;
                  } else if buffer == [] {
                    return Ready(Ok(None));
                  } else {
                    var data := buffer;
                    buffer := [];
                    return Ready(Ok(Some(data)));
                  }
              }
          }
        }
      } else {
        var read := source.PollRead();
        match read
        case Pending => r := Pending;
        case Ready(Err(e)) => r := Ready(Err(e));
        case Ready(Ok(chunk)) =>
          buffer := buffer + chunk;
          if buffer == [] {
            r := Ready(Ok(None));
          } else {
            r := Ready(Ok(Some(buffer)));
            buffer := [];
          }
      }
    }
  }
}
