/** What the polls of the agent's tasks have in common. */
module AgentPolls {
  import opened Basics
  import opened Messages
  import opened TxSteps
  import RxSteps
  import opened RxOutcomes

  // ---------------------------------------------------------------------------------------------------------------
  // One poll of a future for one message
  // ---------------------------------------------------------------------------------------------------------------

  /** It is one turn, or two if the first gets the message sent. */
  lemma OneMessagePoll(tx: Shared, f: SendFuture)
    requires |f.msgs| <= 1
    ensures var t := SendTurn(tx, f);
            if t.result.Some? then PollFuture(tx, f) == PolledFuture(t.tx, t.future, t.result.value)
            else
              var u := SendTurn(t.tx, t.future);
              u.result.Some? && PollFuture(tx, f) == PolledFuture(u.tx, u.future, u.result.value)
    ensures |PollFuture(tx, f).future.msgs| <= 1
  {
    hide LockedSend, LockedFlush;
    var t := SendTurn(tx, f);
    if t.result.None? {
      assert t.future.msgs == [];
      assert PollFuture(t.tx, t.future) == PollFuture(tx, f);
    }
  }

  /** Whether a turn found the connection not ready. */
  predicate Waits(tx: Local, f: SendFuture) {
    SendTurn(Open(tx), f).result == Some(Pending)
  }

  /** A receive never lengthens the log, and taking a message shortens it. */
  lemma RecvShortens<M>(l: RxSteps.Local, from: Filter<M>)
    requires GivesBack(from)
    ensures var p := RxSteps.PollRecv(l, from, Decode);
            && |RxSteps.Log(p.local, Decode)| <= |RxSteps.Log(l, Decode)|
            && (RxSteps.ValueOf(p.answer) != [] ==> |RxSteps.Log(p.local, Decode)| < |RxSteps.Log(l, Decode)|)
  {
    hide RxSteps.Log, RxSteps.PollRecv, Decode, GivesBack;
    RxSteps.RecvSelects(l, from, Decode);
  }

  // ---------------------------------------------------------------------------------------------------------------
  // What receiving uses up
  // ---------------------------------------------------------------------------------------------------------------

  /** Being told the end uses up an answer of the reader. */
  lemma RecvUsesSchedule<M>(l: RxSteps.Local, from: Filter<M>)
    ensures var p := RxSteps.PollRecv(l, from, Decode);
            && |p.local.reading.source.schedule| <= |l.reading.source.schedule|
            && (p.answer == Ready(Ok(None)) ==> |p.local.reading.source.schedule| < |l.reading.source.schedule|)
  {
    hide RxSteps.PollRecv, Decode;
    RecvOutcome(l, from, Decode);
  }
}
