/** The receive side as functions: selective receive over one parking queue that all clones share. What is undelivered is
    one log, the parked messages followed by the frames that are still to be read, and a receive takes one item of it. */
module RxSteps {
  import opened Basics
  import opened Source
  import opened Messages
  import opened Framing

  /** `RxLocal`: the reader, and the messages that were read but wanted by no receiver so far. */
  datatype Local = Local(reading: Reading, parked: seq<Message>)

  /** Where the first message that the filter takes is; the length of the queue if there is none. */
  function FirstMatch<M>(queue: seq<Message>, from: Filter<M>): (k: nat)
    ensures k <= |queue|
    ensures forall j | 0 <= j < k :: from(queue[j]).Err?
    ensures k < |queue| ==> from(queue[k]).Ok?
  {
    if queue == [] || from(queue[0]).Ok? then 0 else 1 + FirstMatch(queue[1..], from)
  }

  function RemoveAt<T>(s: seq<T>, k: nat): seq<T>
    requires k < |s|
  {
    s[..k] + s[k + 1..]
  }

  datatype PolledRecv<+M> = PolledRecv(local: Local, answer: Poll<Result<Option<M>, RxError>>)

  /** The loop of `poll_recv`: read until a message is wanted, parking those that are not. */
  function ReceiveNew<M>(l: Local, from: Filter<M>, decode: Decoder): PolledRecv<M>
    decreases Size(l.reading)
  {
    ReadDelivers(l.reading, decode);
    var p := PollReadMessage(l.reading, decode);
    var l' := l.(reading := p.reading);
    match p.answer
    case Pending => PolledRecv(l', Pending)
    case Ready(Err(e)) => PolledRecv(l', Ready(Err(e)))
    case Ready(Ok(None)) => PolledRecv(l', Ready(Ok(None)))
    case Ready(Ok(Some(m))) =>
      match from(m)
      case Ok(v) => PolledRecv(l', Ready(Ok(Some(v))))
      case Err(back) => ReceiveNew(l'.(parked := l.parked + [back]), from, decode)
  }

  function PollRecv<M>(l: Local, from: Filter<M>, decode: Decoder): PolledRecv<M> {
    var k := FirstMatch(l.parked, from);
    if k < |l.parked| then
      PolledRecv(l.(parked := RemoveAt(l.parked, k)), Ready(Ok(Some(from(l.parked[k]).value))))
    else ReceiveNew(l, from, decode)
  }

  // ---------------------------------------------------------------------------------------------------------------
  // The log
  // ---------------------------------------------------------------------------------------------------------------

  function AsItems(parked: seq<Message>): (r: seq<Item>)
    ensures |r| == |parked| && forall i | 0 <= i < |r| :: r[i] == Received(parked[i])
  {
    seq(|parked|, i requires 0 <= i < |parked| => Received(parked[i]))
  }

  /** Everything that no receiver has had yet, in the order of arrival. */
  function Log(l: Local, decode: Decoder): seq<Item> {
    AsItems(l.parked) + Undelivered(l.reading, decode)
  }

  /** A receiver is answered by a message that it wants, and by any malformed frame. */
  predicate Hits<M>(item: Item, from: Filter<M>) {
    item.Malformed? || from(item.message).Ok?
  }

  ghost predicate IsFirstHit<M>(log: seq<Item>, k: nat, from: Filter<M>) {
    k < |log| && Hits(log[k], from) && forall j | 0 <= j < k :: !Hits(log[j], from)
  }

  /** One poll of `recv::<M>` against the log. An answer is the first item that matches or is malformed, and removes it
      and nothing else. The end is reported when there is no such item, and then nothing is left to read. Otherwise
      nothing is removed, and nothing that matches is parked. */
  ghost predicate Selects<M>(l: Local, p: PolledRecv<M>, from: Filter<M>, decode: Decoder) {
    var log, log' := Log(l, decode), Log(p.local, decode);
    match p.answer
    case Ready(Ok(Some(v))) =>
      exists k: nat :: IsFirstHit(log, k, from) && log[k].Received? && from(log[k].message) == Ok(v)
                       && log' == RemoveAt(log, k)
    case Ready(Err(ParseFailed)) =>
      exists k: nat :: IsFirstHit(log, k, from) && log[k].Malformed? && log' == RemoveAt(log, k)
    case Ready(Ok(None)) =>
      && log' == log == AsItems(p.local.parked)
      && forall i | 0 <= i < |log| :: !Hits(log[i], from)
    case _ =>
      && log' == log
      && forall m <- p.local.parked :: from(m).Err?
  }

  lemma Parks(l: Local, m: Message, reading: Reading, decode: Decoder)
    requires Undelivered(l.reading, decode) == [Received(m)] + Undelivered(reading, decode)
    ensures Log(Local(reading, l.parked + [m]), decode) == Log(l, decode)
  {
    assert AsItems(l.parked + [m]) == AsItems(l.parked) + [Received(m)];
  }

  lemma {:induction false} ReceiveNewSelects<M>(l: Local, from: Filter<M>, decode: Decoder)
    requires GivesBack(from)
    requires forall m <- l.parked :: from(m).Err?
    ensures Selects(l, ReceiveNew(l, from, decode), from, decode)
    decreases Size(l.reading)
  {
    ReadDelivers(l.reading, decode);
    var p := PollReadMessage(l.reading, decode);
    var l' := l.(reading := p.reading);
    hide Undelivered, HasLine, PollReadMessage;
    var log := Log(l, decode);
    var k := |l.parked|;
    match p.answer
    case Ready(Ok(Some(m))) =>
      if from(m).Ok? {
        assert IsFirstHit(log, k, from) && log[k] == Received(m);
        assert Log(l', decode) == RemoveAt(log, k);
      } else {
        assert from(m).error == m;
        Parks(l, m, p.reading, decode);
        ReceiveNewSelects(l'.(parked := l.parked + [m]), from, decode);
        hide Log;
      }
    case Ready(Err(ParseFailed)) =>
      assert IsFirstHit(log, k, from) && log[k] == Malformed;
      assert Log(l', decode) == RemoveAt(log, k);
    case Ready(Ok(None)) =>
      assert forall i | 0 <= i < |log| :: log[i] == Received(l.parked[i]) && l.parked[i] in l.parked;
    case _ =>
  }

  lemma ParkedSelects<M>(l: Local, from: Filter<M>, decode: Decoder)
    requires FirstMatch(l.parked, from) < |l.parked|
    ensures Selects(l, PollRecv(l, from, decode), from, decode)
  {
    var k := FirstMatch(l.parked, from);
    var log, l' := Log(l, decode), PollRecv(l, from, decode).local;
    hide Undelivered, ReceiveNew;
    assert AsItems(RemoveAt(l.parked, k)) == RemoveAt(AsItems(l.parked), k);
    assert Log(l', decode) == RemoveAt(log, k);
    assert IsFirstHit(log, k, from);
    hide Log;
  }

  /** Selective receive refines the log. */
  lemma RecvSelects<M>(l: Local, from: Filter<M>, decode: Decoder)
    requires GivesBack(from)
    ensures Selects(l, PollRecv(l, from, decode), from, decode)
  {
    hide Selects, ReceiveNew;
    if FirstMatch(l.parked, from) < |l.parked| {
      ParkedSelects(l, from, decode);
    } else {
      ReceiveNewSelects(l, from, decode);
    }
  }

  // ---------------------------------------------------------------------------------------------------------------
  // What a receiver sees of the log
  // ---------------------------------------------------------------------------------------------------------------

  function ValueIn<M>(item: Item, from: Filter<M>): seq<M> {
    if item.Received? && from(item.message).Ok? then [from(item.message).value] else []
  }

  /** The values that a filter takes out of a log, in order. */
  function Wanted<M>(log: seq<Item>, from: Filter<M>): seq<M> {
    if log == [] then [] else ValueIn(log[0], from) + Wanted(log[1..], from)
  }

  lemma {:induction false} WantedAppend<M>(a: seq<Item>, b: seq<Item>, from: Filter<M>)
    ensures Wanted(a + b, from) == Wanted(a, from) + Wanted(b, from)
  {
    if a == [] {
      assert a + b == b;
    } else {
      assert (a + b)[1..] == a[1..] + b;
      WantedAppend(a[1..], b, from);
    }
  }

  lemma {:induction false} NothingWanted<M>(log: seq<Item>, from: Filter<M>)
    requires forall i | 0 <= i < |log| :: !Hits(log[i], from) || log[i].Malformed?
    ensures Wanted(log, from) == []
  {
    if log != [] {
      NothingWanted(log[1..], from);
    }
  }

  lemma WantedAround<M>(log: seq<Item>, k: nat, from: Filter<M>)
    requires k < |log|
    ensures Wanted(log, from) == Wanted(log[..k], from) + (ValueIn(log[k], from) + Wanted(log[k + 1..], from))
    ensures Wanted(RemoveAt(log, k), from) == Wanted(log[..k], from) + Wanted(log[k + 1..], from)
  {
    assert log[k..][1..] == log[k + 1..];
    assert log == log[..k] + log[k..];
    hide Wanted, ValueIn;
    WantedAppend(log[..k], log[k + 1..], from);
    WantedAppend(log[..k], log[k..], from);
    WantedFirst(log[k..], from);
  }

  lemma WantedFirst<M>(log: seq<Item>, from: Filter<M>)
    requires log != []
    ensures Wanted(log, from) == ValueIn(log[0], from) + Wanted(log[1..], from)
  {
  }

  function ValueOf<M>(answer: Poll<Result<Option<M>, RxError>>): seq<M> {
    match answer
    case Ready(Ok(Some(v))) => [v]
    case _ => []
  }

  /** Whether an answer takes an item from the log. */
  predicate TakesItem<M>(answer: Poll<Result<Option<M>, RxError>>) {
    match answer
    case Ready(Ok(Some(_))) => true
    case Ready(Err(ParseFailed)) => true
    case _ => false
  }

  /** The item that an answer takes. */
  lemma TakenItem<M>(l: Local, p: PolledRecv<M>, from: Filter<M>, decode: Decoder) returns (k: nat)
    requires Selects(l, p, from, decode) && TakesItem(p.answer)
    ensures IsFirstHit(Log(l, decode), k, from)
    ensures Log(p.local, decode) == RemoveAt(Log(l, decode), k)
    ensures ValueIn(Log(l, decode)[k], from) == ValueOf(p.answer)
  {
    hide Log, RemoveAt;
    var log, log' := Log(l, decode), Log(p.local, decode);
    match p.answer
    case Ready(Ok(Some(v))) =>
      k :| IsFirstHit(log, k, from) && log[k].Received? && from(log[k].message) == Ok(v) && log' == RemoveAt(log, k);
    case Ready(Err(ParseFailed)) =>
      k :| IsFirstHit(log, k, from) && log[k].Malformed? && log' == RemoveAt(log, k);
  }

  lemma OtherAnswers<M>(l: Local, p: PolledRecv<M>, from: Filter<M>, decode: Decoder)
    requires Selects(l, p, from, decode) && !TakesItem(p.answer)
    ensures Log(p.local, decode) == Log(l, decode) && ValueOf(p.answer) == []
    ensures p.answer == Ready(Ok(None)) ==> forall i | 0 <= i < |Log(l, decode)| :: !Hits(Log(l, decode)[i], from)
  {
    hide Log, Hits, IsFirstHit, RemoveAt;
  }

  /** Without its first hit, a log has one value less for the receiver that it hits, */
  lemma HitIsOwn<M>(log: seq<Item>, k: nat, from: Filter<M>)
    requires IsFirstHit(log, k, from)
    ensures Wanted(log, from) == ValueIn(log[k], from) + Wanted(RemoveAt(log, k), from)
  {
    WantedAround(log, k, from);
    NothingWanted(log[..k], from);
    hide Wanted, ValueIn, RemoveAt;
  }

  /** and as many as before for a disjoint one. */
  lemma HitSparesOthers<M, N>(log: seq<Item>, k: nat, from: Filter<M>, other: Filter<N>)
    requires IsFirstHit(log, k, from) && Disjoint(from, other)
    ensures Wanted(RemoveAt(log, k), other) == Wanted(log, other)
  {
    WantedAround(log, k, other);
    assert ValueIn(log[k], other) == [];
    hide Wanted, ValueIn, RemoveAt;
  }

  /** A receiver is handed its own values one by one, in order; and when it is told the end, it has had them all. */
  lemma RecvTakesOwn<M>(l: Local, from: Filter<M>, decode: Decoder)
    requires GivesBack(from)
    ensures var p := PollRecv(l, from, decode);
            && Wanted(Log(l, decode), from) == ValueOf(p.answer) + Wanted(Log(p.local, decode), from)
            && (p.answer == Ready(Ok(None)) ==> Wanted(Log(p.local, decode), from) == [])
  {
    hide Log, PollRecv, Wanted, Selects, RemoveAt, GivesBack;
    RecvSelects(l, from, decode);
    var p := PollRecv(l, from, decode);
    if TakesItem(p.answer) {
      var k := TakenItem(l, p, from, decode);
      HitIsOwn(Log(l, decode), k, from);
    } else {
      OtherAnswers(l, p, from, decode);
      if p.answer == Ready(Ok(None)) {
        NothingWanted(Log(l, decode), from);
      }
    }
  }

  /** What others want is left to them. */
  lemma RecvSparesOthers<M, N>(l: Local, from: Filter<M>, other: Filter<N>, decode: Decoder)
    requires GivesBack(from) && Disjoint(from, other)
    ensures Wanted(Log(PollRecv(l, from, decode).local, decode), other) == Wanted(Log(l, decode), other)
  {
    hide Log, PollRecv, Wanted, Selects, RemoveAt, GivesBack, Disjoint;
    RecvSelects(l, from, decode);
    var p := PollRecv(l, from, decode);
    if TakesItem(p.answer) {
      var k := TakenItem(l, p, from, decode);
      HitSparesOthers(Log(l, decode), k, from, other);
    } else {
      OtherAnswers(l, p, from, decode);
    }
  }

  // ---------------------------------------------------------------------------------------------------------------
  // Any number of receivers
  // ---------------------------------------------------------------------------------------------------------------

  /** Receivers over clones of one handle; `had[i]` is what receiver `i` was handed, `ended[i]` whether it was ever told
      the end. A `Recv` future has no state of its own, so dropping one is no step. */
  datatype Receivers<M> = Receivers(local: Local, had: seq<seq<M>>, ended: seq<bool>)

  function PollReceiver<M>(s: Receivers<M>, filters: seq<Filter<M>>, i: nat, decode: Decoder): Receivers<M>
    requires i < |filters| == |s.had| == |s.ended|
  {
    var p := PollRecv(s.local, filters[i], decode);
    Receivers(p.local, s.had[i := s.had[i] + ValueOf(p.answer)], s.ended[i := s.ended[i] || p.answer == Ready(Ok(None))])
  }

  /** Polls in any order; an index without a receiver is no poll. */
  function RunReceivers<M>(s: Receivers<M>, filters: seq<Filter<M>>, polls: seq<nat>, decode: Decoder): (r: Receivers<M>)
    requires |filters| == |s.had| == |s.ended|
    ensures |filters| == |r.had| == |r.ended|
    decreases polls
  {
    if polls == [] then s
    else if polls[0] < |filters|
    then RunReceivers(PollReceiver(s, filters, polls[0], decode), filters, polls[1..], decode)
    else RunReceivers(s, filters, polls[1..], decode)
  }

  ghost predicate PairwiseDisjoint<M>(filters: seq<Filter<M>>) {
    && (forall i | 0 <= i < |filters| :: GivesBack(filters[i]))
    && (forall i, j | 0 <= i < |filters| && 0 <= j < |filters| && i != j :: Disjoint(filters[i], filters[j]))
  }

  ghost predicate Accounts<M>(s: Receivers<M>, filters: seq<Filter<M>>, log: seq<Item>, decode: Decoder)
    requires |filters| == |s.had| == |s.ended|
  {
    forall i | 0 <= i < |filters| ::
      && s.had[i] + Wanted(Log(s.local, decode), filters[i]) == Wanted(log, filters[i])
      && (s.ended[i] ==> Wanted(Log(s.local, decode), filters[i]) == [])
  }

  lemma PollAccounts<M>(s: Receivers<M>, filters: seq<Filter<M>>, log: seq<Item>, i: nat, decode: Decoder)
    requires i < |filters| == |s.had| == |s.ended|
    requires PairwiseDisjoint(filters) && Accounts(s, filters, log, decode)
    ensures Accounts(PollReceiver(s, filters, i, decode), filters, log, decode)
  {
    var s' := PollReceiver(s, filters, i, decode);
    RecvTakesOwn(s.local, filters[i], decode);
    var p := PollRecv(s.local, filters[i], decode);
    hide Log, PollRecv;
    forall j | 0 <= j < |filters|
      ensures s'.had[j] + Wanted(Log(s'.local, decode), filters[j]) == Wanted(log, filters[j])
      ensures s'.ended[j] ==> Wanted(Log(s'.local, decode), filters[j]) == []
    {
      if j != i {
        RecvSparesOthers(s.local, filters[i], filters[j], decode);
      } else {
        assert s'.had[i] + Wanted(Log(s'.local, decode), filters[i])
            == s.had[i] + (ValueOf(p.answer) + Wanted(Log(s'.local, decode), filters[i]));
      }
    }
  }

  lemma {:induction false} RunAccounts<M>(
    s: Receivers<M>, filters: seq<Filter<M>>, log: seq<Item>, polls: seq<nat>, decode: Decoder)
    requires |filters| == |s.had| == |s.ended|
    requires PairwiseDisjoint(filters) && Accounts(s, filters, log, decode)
    ensures Accounts(RunReceivers(s, filters, polls, decode), filters, log, decode)
    decreases polls
  {
    if polls != [] {
      if polls[0] < |filters| {
        PollAccounts(s, filters, log, polls[0], decode);
        RunAccounts(PollReceiver(s, filters, polls[0], decode), filters, log, polls[1..], decode);
      } else {
        RunAccounts(s, filters, log, polls[1..], decode);
      }
    }
  }

  function NoReceiverYet<M>(stream: Bytes, schedule: seq<ReadAnswer>, n: nat): Receivers<M> {
    Receivers(Local(Reading(Source(stream, schedule), []), []), seq(n, _ => []), seq(n, _ => false))
  }

  /** Receivers with pairwise disjoint filters never notice each other: whatever the interleaving of their polls and the
      chunking of the stream, each has been handed a prefix of what its filter takes out of the stream, in order, and all
      of it once it was told the end. Malformed frames reach someone as an error but cost nobody a message. */
  lemma ScheduleIndependence<M>(
    stream: Bytes, schedule: seq<ReadAnswer>, filters: seq<Filter<M>>, polls: seq<nat>, decode: Decoder, i: nat)
    requires PairwiseDisjoint(filters) && i < |filters|
    ensures var s := RunReceivers(NoReceiverYet(stream, schedule, |filters|), filters, polls, decode);
            var own := Wanted(Items(decode, Frames(stream)), filters[i]);
            s.had[i] <= own && (s.ended[i] ==> s.had[i] == own)
  {
    var s := NoReceiverYet(stream, schedule, |filters|);
    assert [] + stream == stream;
    assert Log(s.local, decode) == Items(decode, Frames(stream));
    assert Accounts(s, filters, Items(decode, Frames(stream)), decode);
    RunAccounts(s, filters, Items(decode, Frames(stream)), polls, decode);
  }
}
