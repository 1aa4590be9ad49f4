/** What a host hears of a run of the agent: any receivers, over the agent's connection, cut wherever and read in any chunks
    and in any order. */
module HostTheorems {
  import opened Basics
  import opened Source
  import Json
  import opened Messages
  import opened LineReader
  import opened TxSteps
  import opened Framing
  import opened RxSteps
  import opened EndToEnd
  import opened Runs
  import opened AgentSteps
  import opened AgentTrace
  import opened AgentRun
  import opened AgentTheorems

  // ---------------------------------------------------------------------------------------------------------------
  // What a receiver takes out of a trace
  // ---------------------------------------------------------------------------------------------------------------

  /** The projection of a trace is what the filter of the stream takes out of it. */
  lemma {:induction false} WantedIsOfStream(trace: seq<Message>, stream: Stream)
    ensures Wanted(AsItems(trace), OutputFilter(stream)) == OfStream(trace, stream)
  {
    if trace != [] {
      var n := |trace| - 1;
      var from := OutputFilter(stream);
      WantedIsOfStream(trace[..n], stream);
      assert AsItems(trace) == AsItems(trace[..n]) + [Received(trace[n])];
      WantedAppend(AsItems(trace[..n]), [Received(trace[n])], from);
      WantedOne(trace[n], stream);
      hide Wanted, AsItems, OutputFilter, OnStreamOnly;
    }
  }

  lemma WantedOne(m: Message, stream: Stream)
    ensures Wanted([Received(m)], OutputFilter(stream)) == OnStreamOnly(stream, m)
  {
    var v := ValueIn(Received(m), OutputFilter(stream));
    WantedFirst([Received(m)], OutputFilter(stream));
    assert [Received(m)][1..] == [] && v + [] == v;
  }

  lemma {:induction false} PayloadsAppend(a: seq<Stdio>, b: seq<Stdio>)
    ensures Payloads(a + b) == Payloads(a) + Payloads(b)
  {
    if b == [] {
      assert a + b == a;
    } else {
      assert (a + b)[..|a| + |b| - 1] == a + b[..|b| - 1];
      PayloadsAppend(a, b[..|b| - 1]);
    }
  }

  /** A prefix of a preserving sequence preserves. */
  lemma PrefixPreserves(had: seq<Stdio>, v: seq<Stdio>, output: Bytes, lineBuffered: bool)
    requires had <= v && Preserves(v, output, lineBuffered)
    ensures Preserves(had, output, lineBuffered)
  {
    if had != v {
      var rest := v[|had|..];
      assert v == had + rest;
      PayloadsAppend(had, rest);
      ConcatAppend(Payloads(had), Payloads(rest));
      assert forall i | 0 <= i < |had| :: had[i] == v[i];
      assert forall i | 0 <= i < |v| - 1 :: v[i] == v[..|v| - 1][i];
      assert AllData(had);
      hide Payloads, Concat, Lines;
    }
  }

  /** A receiver whose values are put into a common type. */
  function As<M, N>(from: Filter<M>, wrap: M -> N): Filter<N> {
    m => match from(m)
         case Ok(v) => Ok(wrap(v))
         case Err(back) => Err(back)
  }

  lemma {:induction false} WantedAs<M, N>(log: seq<Item>, from: Filter<M>, wrap: M -> N)
    ensures Wanted(log, As(from, wrap)) == Mapped(wrap, Wanted(log, from))
  {
    if log != [] {
      WantedAs(log[1..], from, wrap);
      WantedFirst(log, from);
      WantedFirst(log, As(from, wrap));
      hide Wanted;
    }
  }

  lemma {:induction false} WantedBytes(trace: seq<Message>, stream: Stream)
    ensures Wanted(AsItems(trace), BytesFilter(stream)) == Payloads(OfStream(trace, stream))
  {
    if trace != [] {
      var n := |trace| - 1;
      var from := BytesFilter(stream);
      WantedBytes(trace[..n], stream);
      assert AsItems(trace) == AsItems(trace[..n]) + [Received(trace[n])];
      WantedAppend(AsItems(trace[..n]), [Received(trace[n])], from);
      BytesOne(trace[n], stream);
      PayloadsAppend(OfStream(trace[..n], stream), OnStreamOnly(stream, trace[n]));
      hide Wanted, AsItems, BytesFilter, OnStreamOnly, Payloads;
    }
  }

  lemma BytesOne(m: Message, stream: Stream)
    ensures Wanted([Received(m)], BytesFilter(stream)) == Payloads(OnStreamOnly(stream, m))
  {
    WantedFirst([Received(m)], BytesFilter(stream));
    assert [Received(m)][1..] == [];
    assert forall v: seq<Bytes> :: v + [] == v;
  }

  lemma {:induction false} WantedExits(trace: seq<Message>)
    ensures Wanted(AsItems(trace), ExitedFromMessage) == ExitsIn(trace)
  {
    if trace != [] {
      var n := |trace| - 1;
      WantedExits(trace[..n]);
      assert AsItems(trace) == AsItems(trace[..n]) + [Received(trace[n])];
      WantedAppend(AsItems(trace[..n]), [Received(trace[n])], ExitedFromMessage);
      ExitsOne(trace[n]);
      hide Wanted, AsItems, ExitedFromMessage;
    }
  }

  lemma ExitsOne(m: Message)
    ensures Wanted([Received(m)], ExitedFromMessage) == if m.Exited? then [m.status] else []
  {
    WantedFirst([Received(m)], ExitedFromMessage);
    assert [Received(m)][1..] == [];
  }

  // ---------------------------------------------------------------------------------------------------------------
  // Any host
  // ---------------------------------------------------------------------------------------------------------------

  /** A host with any receivers, polled in any order. */
  function HostHas<M>(stream: Bytes, schedule: seq<ReadAnswer>, filters: seq<Filter<M>>, polls: seq<nat>)
    : (r: Receivers<M>)
    ensures |r.had| == |r.ended| == |filters|
  {
    RunReceivers(NoReceiverYet(stream, schedule, |filters|), filters, polls, Decode)
  }

  /** Each receiver has been handed a prefix of what its filter takes out of the trace; all of it, once everything that
      the agent accepted has arrived and the receiver was told the end. */
  lemma HostHears<M>(
    w: World, events: seq<AgentEvent>, stream: Bytes, schedule: seq<ReadAnswer>, filters: seq<Filter<M>>,
    polls: seq<nat>, i: nat)
    requires stream <= RunAgent(InitAgent(w), events).tx.sink.written
    requires PairwiseDisjoint(filters) && i < |filters|
    ensures var a := RunAgent(InitAgent(w), events);
            var r := HostHas(stream, schedule, filters, polls);
            var all := Wanted(AsItems(a.trace), filters[i]);
            && r.had[i] <= all
            && (a.status == Some(true) && stream == a.tx.sink.written && r.ended[i] ==> r.had[i] == all)
  {
    hide RunAgent, Decode, Encode, Wire, Bodies, Wanted, RunReceivers, PairwiseDisjoint, Complete;
    var a := RunAgent(InitAgent(w), events);
    WrittenIsTrace(w, events);
    if a.status == Some(true) {
      SuccessfulRun(w, events);
    }
    HeardByReceivers(a.trace, stream, schedule, filters, polls, i);
  }

  /** What the child writes on a stream. */
  function ChildWrites(w: World, output: Stream): Bytes {
    if output == StderrStream then w.childErr.unread else w.childOut.unread
  }

  lemma PreservedOn(w: World, events: seq<AgentEvent>, output: Stream)
    requires output != StdinStream
    ensures var a := RunAgent(InitAgent(w), events);
            && Preserves(OfStream(a.trace, output), ChildWrites(w, output), a.lineBuffered)
            && (a.status == Some(true) ==> EndsClosed(OfStream(a.trace, output)))
  {
    hide RunAgent, Preserves, OfStream, EndsClosed, Wire, Bodies, Kinds, ExitsIn;
    OutputPreserved(w, events);
    if RunAgent(InitAgent(w), events).status == Some(true) {
      SuccessfulRun(w, events);
    }
  }

  lemma MappedPrefix<M, N>(wrap: M -> N, all: seq<M>, had: seq<N>)
    requires had <= Mapped(wrap, all)
    ensures had == Mapped(wrap, all[..|had|])
  {
  }

  /** What a host has been handed by its receiver for an output stream, whatever receivers it has beside it, is `v`: it
      preserves what the child writes on that stream, being a prefix of it, and all of it once a closed is among it. After a
      successful run that was read to its end it is all of it. */
  lemma HostHearsOutput<M>(
    w: World, events: seq<AgentEvent>, stream: Bytes, schedule: seq<ReadAnswer>, filters: seq<Filter<M>>,
    polls: seq<nat>, i: nat, output: Stream, wrap: Stdio -> M)
    returns (v: seq<Stdio>)
    requires stream <= RunAgent(InitAgent(w), events).tx.sink.written
    requires PairwiseDisjoint(filters) && i < |filters|
    requires output != StdinStream && filters[i] == As(OutputFilter(output), wrap)
    ensures var a := RunAgent(InitAgent(w), events);
            var r := HostHas(stream, schedule, filters, polls);
            && r.had[i] == Mapped(wrap, v)
            && Preserves(v, ChildWrites(w, output), a.lineBuffered)
            && (a.status == Some(true) && stream == a.tx.sink.written && r.ended[i] ==>
                  EndsClosed(v) && Concat(Payloads(v)) == ChildWrites(w, output))
  {
    hide RunAgent, Decode, Wanted, RunReceivers, PairwiseDisjoint, As, OutputFilter, OfStream, EndsClosed, Preserves,
      AsItems, HostHas;
    var a := RunAgent(InitAgent(w), events);
    var had := HostHas(stream, schedule, filters, polls).had[i];
    var all := OfStream(a.trace, output);
    HostHears(w, events, stream, schedule, filters, polls, i);
    WantedAs(AsItems(a.trace), OutputFilter(output), wrap);
    WantedIsOfStream(a.trace, output);
    PreservedOn(w, events, output);
    MappedPrefix(wrap, all, had);
    v := all[..|had|];
    PrefixPreserves(v, all, ChildWrites(w, output), a.lineBuffered);
    if |had| == |all| {
      assert v == all;
      PreservesAll(v, ChildWrites(w, output), a.lineBuffered);
    }
  }

  lemma PreservesAll(v: seq<Stdio>, output: Bytes, lineBuffered: bool)
    requires Preserves(v, output, lineBuffered)
    ensures EndsClosed(v) ==> Concat(Payloads(v)) == output
  {
  }

  /** The same for a host that receives the data of the stream alone. */
  lemma HostHearsBytes<M>(
    w: World, events: seq<AgentEvent>, stream: Bytes, schedule: seq<ReadAnswer>, filters: seq<Filter<M>>,
    polls: seq<nat>, i: nat, output: Stream, wrap: Bytes -> M)
    returns (v: seq<Bytes>)
    requires stream <= RunAgent(InitAgent(w), events).tx.sink.written
    requires PairwiseDisjoint(filters) && i < |filters|
    requires output != StdinStream && filters[i] == As(BytesFilter(output), wrap)
    ensures var a := RunAgent(InitAgent(w), events);
            var r := HostHas(stream, schedule, filters, polls);
            && r.had[i] == Mapped(wrap, v)
            && Concat(v) <= ChildWrites(w, output)
            && (a.lineBuffered ==> v <= Lines(ChildWrites(w, output)))
            && (a.status == Some(true) && stream == a.tx.sink.written && r.ended[i] ==>
                  Concat(v) == ChildWrites(w, output))
  {
    hide RunAgent, Decode, Wanted, RunReceivers, PairwiseDisjoint, As, BytesFilter, OfStream, EndsClosed, Payloads,
      OutputShape, AsItems, HostHas, Concat, Lines;
    var a := RunAgent(InitAgent(w), events);
    var had := HostHas(stream, schedule, filters, polls).had[i];
    var all := Payloads(OfStream(a.trace, output));
    HostHears(w, events, stream, schedule, filters, polls, i);
    WantedAs(AsItems(a.trace), BytesFilter(output), wrap);
    WantedBytes(a.trace, output);
    PreservedOn(w, events, output);
    MappedPrefix(wrap, all, had);
    v := all[..|had|];
    ConcatAppend(v, all[|had|..]);
    assert v + all[|had|..] == all;
    if |had| == |all| {
      assert v == all;
    }
  }

  lemma ExitsCaused(w: World, events: seq<AgentEvent>)
    ensures var exits := ExitsIn(RunAgent(InitAgent(w), events).trace);
            |exits| <= 1 && forall status <- exits :: ExitPoll(Exits(status)) in events
  {
    hide RunAgent, ExitsIn, TasksInv, MainInv, WorldInv, Linked, OutputShape, OfStream;
    var trace := RunAgent(InitAgent(w), events).trace;
    Reachable(w, events);
    TasksShape(RunAgent(InitAgent(w), events));
    TraceIsCaused(w, events);
    forall status | status in ExitsIn(trace)
      ensures ExitPoll(Exits(status)) in events
    {
      var k :| 0 <= k < |ExitsIn(trace)| && ExitsIn(trace)[k] == status;
      ExitInTrace(trace, k);
      assert Caused(Exited(status), events);
    }
  }

  /** A host is told at most one exit status, and it is one that a wait has given; after a successful run that was read to
      its end it has been told one. */
  lemma HostHearsExit<M>(
    w: World, events: seq<AgentEvent>, stream: Bytes, schedule: seq<ReadAnswer>, filters: seq<Filter<M>>,
    polls: seq<nat>, i: nat, wrap: i32 -> M)
    returns (v: seq<i32>)
    requires stream <= RunAgent(InitAgent(w), events).tx.sink.written
    requires PairwiseDisjoint(filters) && i < |filters| && filters[i] == As(ExitedFromMessage, wrap)
    ensures var a := RunAgent(InitAgent(w), events);
            var r := HostHas(stream, schedule, filters, polls);
            && r.had[i] == Mapped(wrap, v)
            && |v| <= 1 && (forall status <- v :: ExitPoll(Exits(status)) in events)
            && (a.status == Some(true) && stream == a.tx.sink.written && r.ended[i] ==> |v| == 1)
  {
    hide RunAgent, Decode, Wanted, RunReceivers, PairwiseDisjoint, As, ExitedFromMessage, ExitsIn, AsItems, HostHas,
      Kinds, EndsClosed, OfStream, Wire, Bodies;
    var a := RunAgent(InitAgent(w), events);
    var had := HostHas(stream, schedule, filters, polls).had[i];
    var all := ExitsIn(a.trace);
    HostHears(w, events, stream, schedule, filters, polls, i);
    WantedAs(AsItems(a.trace), ExitedFromMessage, wrap);
    WantedExits(a.trace);
    ExitsCaused(w, events);
    if a.status == Some(true) {
      SuccessfulRun(w, events);
    }
    MappedPrefix(wrap, all, had);
    v := all[..|had|];
  }

  // ---------------------------------------------------------------------------------------------------------------
  // A host with a receiver for everything that the agent sends
  // ---------------------------------------------------------------------------------------------------------------

  datatype HostValue =
    | HasStarted(pid: u32)
    | OnStdout(stdio: Stdio)
    | OnStderr(stdio: Stdio)
    | OnStdin(stdio: Stdio)
    | HasExited(status: i32)
    | HasFailed(text: Json.Text)

  function HostReceiver(i: nat): Filter<HostValue> {
    match i
    case 0 => As(StartedFromMessage, pid => HasStarted(pid))
    case 1 => As(OutputFilter(StdoutStream), s => OnStdout(s))
    case 2 => As(OutputFilter(StderrStream), s => OnStderr(s))
    case 3 => As(OutputFilter(StdinStream), s => OnStdin(s))
    case 4 => As(ExitedFromMessage, status => HasExited(status))
    case _ => As(ErrorFromMessage, text => HasFailed(text))
  }

  function HostReceivers(): (r: seq<Filter<HostValue>>)
    ensures |r| == 6 && forall i | 0 <= i < 6 :: r[i] == HostReceiver(i)
  {
    seq(6, i requires 0 <= i => HostReceiver(i))
  }

  /** Which of them takes a message; the last number stands for none. */
  function TakenBy(m: Message): nat {
    match m
    case Started(_) => 0
    case Stdout(_) => 1
    case Stderr(_) => 2
    case Stdin(_) => 3
    case Exited(_) => 4
    case Error(_) => 5
    case _ => 6
  }

  lemma AsTakes<M, N>(from: Filter<M>, wrap: M -> N, m: Message)
    ensures As(from, wrap)(m).Ok? <==> from(m).Ok?
    ensures GivesBack(from) && from(m).Err? ==> As(from, wrap)(m).Err? && As(from, wrap)(m).error == m
  {
  }

  lemma TakenByOne(i: nat, m: Message)
    requires i < 6
    ensures HostReceiver(i)(m).Ok? <==> i == TakenBy(m)
    ensures HostReceiver(i)(m).Err? ==> HostReceiver(i)(m).error == m
  {
    match i
    case 0 => AsTakes(StartedFromMessage, (pid: u32) => HasStarted(pid), m);
    case 1 => AsTakes(OutputFilter(StdoutStream), (s: Stdio) => OnStdout(s), m);
    case 2 => AsTakes(OutputFilter(StderrStream), (s: Stdio) => OnStderr(s), m);
    case 3 => AsTakes(OutputFilter(StdinStream), (s: Stdio) => OnStdin(s), m);
    case 4 => AsTakes(ExitedFromMessage, (status: i32) => HasExited(status), m);
    case _ => AsTakes(ErrorFromMessage, (text: Json.Text) => HasFailed(text), m);
  }

  lemma HostReceiversDisjoint(i: nat, j: nat)
    requires i < 6 && j < 6
    ensures GivesBack(HostReceiver(i))
    ensures i != j ==> Disjoint(HostReceiver(i), HostReceiver(j))
  {
    hide HostReceiver, TakenBy;
    forall m: Message
      ensures HostReceiver(i)(m).Err? ==> HostReceiver(i)(m).error == m
      ensures i != j ==> HostReceiver(i)(m).Err? || HostReceiver(j)(m).Err?
    {
      TakenByOne(i, m);
      TakenByOne(j, m);
    }
  }

  /** They are receivers as the theorems above are about, and each message that the agent can send has one. */
  lemma HostReceiversFit()
    ensures PairwiseDisjoint(HostReceivers())
    ensures forall m: Message | TakenBy(m) < 6 :: HostReceivers()[TakenBy(m)](m).Ok?
  {
    hide HostReceivers, HostReceiver, TakenBy, GivesBack, Disjoint;
    forall i: nat, j: nat | i < 6 && j < 6
      ensures GivesBack(HostReceivers()[i])
      ensures i != j ==> Disjoint(HostReceivers()[i], HostReceivers()[j])
    {
      HostReceiversDisjoint(i, j);
    }
    forall m: Message | TakenBy(m) < 6
      ensures HostReceivers()[TakenBy(m)](m).Ok?
    {
      TakenByOne(TakenBy(m), m);
    }
  }
}