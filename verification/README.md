# The exec protocol: transport, codec and agent run

A model, in Dafny 4.11, of the protocol by which a host runs one process inside a minimal virtual machine. The project
covers

- the **codec** (`Json`, `Messages`, `WireFormat`): every protocol message printed as JSON and parsed again, byte payloads in their two
  representations, strings with all escapes and UTF-8 validity, members in any order;
- the **send side** (`Connection`, `TxSteps`, `Tx`, `Senders`, `TxOutcomes`, `SenderOutcomes`): one byte buffer shared by any number of cloned handles,
  drained by partial, pending and failing writes, with pushback, flush and close;
- the **receive side** (`Source`, `Framing`, `RxSteps`, `Rx`, `RxOutcomes`): newline framing over arbitrary chunks, and selective receive
  by message type over a parking queue that all clones share;
- **end to end** (`EndToEnd`): from the senders of one side to the receivers of the other, over a connection that may be cut
  anywhere;
- the **agent run** (`LineReader`, `AgentSteps`, `AgentTrace`, `AgentRun`, `AgentTheorems`, `HostTheorems`; why it fails:
  `AgentOutcomes`, `AgentFaults`, `AgentVerdicts`, `AgentDeliveries`): the four cooperating tasks over one
  send and one receive handle, from the first receive to the final close, as a state machine whose steps come in any order, and
  what a host with any receivers hears of it;
- the **agent program** (`AgentPolls`, `OutputTasks`, `InputTasks`, `ExitTasks`, `AgentParts`, `AgentJoin`, `AgentProgram`, over `Runs`):
  the same agent as objects whose polls loop as the source's tasks do, proved to be runs of that state machine;
- the **mount table** of the liveness agent (`Mounts`): decoding mount points and reducing the table to one entry a device.

`dafny verify dfyconfig.toml` checks the whole project.

## How to read it

What the environment decides is an argument: a writer carries the answers it will give (`writes`, `flushes`, `shutdowns`), a
reader its total stream and the schedule of chunks, and an event of the agent carries the result of a spawn, a wait or a
`close`. All of them are arbitrary, an exhausted script answers "not ready", and every theorem is about all of them, so it holds
for every schedule of partial, pending and failing calls.

Each call that the source makes under one lock is a function from the state before to the state after (`TxSteps`,
`Framing`, `RxSteps`, `LineReader`), and a method on objects that does the same in place with the source's loops
(`Connection.Writer`, `Source.Reader`, `Tx`, `Rx`, `LineReader.OutputReader`, `Mounts.Disks`). The method's postcondition is the
equation between the two. Concurrency is the arbitrary interleaving of such calls: `Senders.Run` for any number of futures,
which may be dropped at any time, `RxSteps.RunReceivers` for any number of receivers, `AgentSteps.RunAgent` for the tasks of the
agent.

The agent's tasks and `main` are resumable objects: one `Poll` runs until what the object waits for is not ready. Its
postcondition says that the objects have gone through some steps of the state machine (`Run` or `RunAgent`, over the steps that
it returns), and that a poll which reports pending ends with a step that found something not ready (`Stuck`). The order in which
`select!` polls its branches and the answers of the operating system are chosen freely there. `AgentProgram.RunProgram` brings
the theorems about all runs to the bytes that the objects have written.

What a call answers is told twice: as a function of the state, and in the modules named `Outcomes` by the answers of the
surroundings that it has used (`Scripts.Used`). The latter say that every failure and every wait comes from an answer, and that
no failing answer is passed over; without them a call could fail or wait at will.

State predicates named `Inv` hold in every reachable state (`Senders.RunKeeps`, `AgentRun.Reachable`). Some state carries a
record of the past that the source does not keep and no step looks at: the bodies `accepted` into the send buffer, how many of them a flush has
`settled`, what a connection has `written` and `flushed`, the `trace` of the agent.

Where code and documentation disagree the model follows the code: output is line-buffered unless the host says otherwise
(`agent/src/main.rs:67`; `protocol/SPECIFICATION.md:65` says the default is false), `exited` may precede output and the `closed`
messages (`protocol/SPECIFICATION.md:196` says it follows all output), and messages other than `exec` that arrive first are parked
and not errors (`protocol/src/io/rx.rs:189-204`; `protocol/SPECIFICATION.md:71-72`).

## Results that are not what one might expect

- After `close` has taken the state, a send of no messages without a flush still succeeds; everything else fails
  (`Senders.ClosedTurn` gives the exact condition).
- A message can be delivered although its future fails: the error may come after the message was taken. What holds is that
  a future that fails or is dropped has had exactly a prefix of its messages accepted (`Senders.SendLedger`).
- The reader of the mount table splits at every Unicode white space, while the kernel escapes only spaces, tabs and newlines.
  `Mounts.MountPointSurvives` proves that what is decoded is the mount point up to its first other white space, and so the
  mount point exactly when it has none; `Mounts.NoBreakSpaceIsLost` is a path whose line is taken for one of the root.

## Model

| member | source | states |
|---|---|---|
| `Messages.DecodeEncode` | protocol/src/lib.rs:203-230 | reading back the printed form of any message gives the message: all payloads, strings, integers and optional members |
| `Messages.EitherDataEncoding` | protocol/src/data_bytes.rs:5-68 | a payload is a string exactly when it is ASCII, and both the string and the number array are read back as the payload |
| `Messages.VisitSeq` | protocol/src/data_bytes.rs:57-67 | the loop over the elements gives bytes exactly when every element is a number below 256, and then precisely those |
| `Messages.ExecRoundTrip` | protocol/src/lib.rs:22-34 | skipped and defaulted members of `exec` lose nothing: empty arguments, absent directory, user and buffering come back as they were |
| `Messages.EncodeIsOneLine` | protocol/src/io/tx.rs:16-20 | a body is not empty and contains no newline, so the newline behind it ends the frame |
| `Messages.DecodeIsPrefixFree` | protocol/src/io/rx.rs:86 | if a frame parses, whatever can continue it to another frame that parses is white space |
| `Messages.CutBodyIsMalformed` | protocol/src/io/rx.rs:86 | no strict prefix of a body parses |
| `WireFormat.ExecText` | protocol/src/lib.rs:22-34 | the text of `exec`, character by character, with each optional member present or left out; and that text is read as the message |
| `WireFormat.StartedText` | protocol/src/lib.rs:46-48 | the text is `{"started":{"pid":`, the number, `}}` |
| `WireFormat.StdinText` | protocol/src/lib.rs:87-93 | the text is `{"stdin":{"data":`, the payload, `}}` |
| `WireFormat.StdoutText` | protocol/src/lib.rs:87-93 | the text is `{"stdout":{"data":`, the payload, `}}` |
| `WireFormat.StderrText` | protocol/src/lib.rs:87-93 | the text is `{"stderr":{"data":`, the payload, `}}` |
| `WireFormat.StdinClosedText` | protocol/src/lib.rs:63-98 | the text is `{"stdin":{"closed":true}}` |
| `WireFormat.StdoutClosedText` | protocol/src/lib.rs:63-98 | the text is `{"stdout":{"closed":true}}` |
| `WireFormat.StderrClosedText` | protocol/src/lib.rs:63-98 | the text is `{"stderr":{"closed":true}}` |
| `WireFormat.KillText` | protocol/src/lib.rs:167-169 | the text is `{"kill":{"signal":`, the number, `}}` |
| `WireFormat.ExitedText` | protocol/src/lib.rs:153-155 | the text is `{"exited":{"status":`, the number, `}}` |
| `WireFormat.ErrorText` | protocol/src/lib.rs:181-183 | the text is `{"error":{"message":`, the string, `}}` |
| `WireFormat.NoOpText` | protocol/src/lib.rs:203-230 | the text is `{"private-noop":null}` |
| `WireFormat.PayloadIsText` | protocol/src/data_bytes.rs:5-14 | a payload is printed as a string if all bytes are below 128, and otherwise as its bytes in decimal between commas and brackets |
| `WireFormat.StringText` | protocol/src/io/tx.rs:16-20 | a string is printed between quotation marks with the escapes of section 7 of RFC 8259, byte by byte |
| `WireFormat.NumberText` | protocol/src/io/tx.rs:16-20 | a number is printed in decimal without leading zeros, behind a minus sign if it is negative |
| `Messages.AgentFilters` | protocol/src/lib.rs:35-197 | a filter that refuses a message gives it back unchanged, and no message is wanted by two receivers of the agent |
| `Messages.StreamFilters` | protocol/src/lib.rs:107-149 | in the family of a stream's filters, those for the data alone and for the end alone divide between them what the filters for both take; streams do not compete |
| `Connection.TransmitMoves` | protocol/src/io/tx.rs:38-51 | writing in pieces moves bytes from buffer to connection without loss, and is done exactly when the buffer is empty |
| `Connection.TransmitAnswered` | protocol/src/io/tx.rs:38-51 | a transmission ends because nothing is left, or else by the last answer of the connection: not ready, an error, or nothing taken |
| `Tx.TxLocal.PollTransmit` | protocol/src/io/tx.rs:38-51 | the draining loop over partial writes does to buffer and writer what the specification function says |
| `Tx.TxLocal.PollFlush` | protocol/src/io/tx.rs:52-63 | the writer is flushed whatever the transmission did, and the errors take precedence as specified |
| `Tx.TxLocal.PollFlushInBackground` | protocol/src/io/tx.rs:64-81 | pending becomes success below one mebibyte and stays pending from there on |
| `Tx.TxLocal.PollSend` | protocol/src/io/tx.rs:83-99 | the message is taken between the two background flushes, once, with its newline |
| `Tx.TxLocal.PollClose` | protocol/src/io/tx.rs:101-129 | one poll of closing: drain, stop draining at zero or an error, shut down |
| `Tx.Handle.PollSend` | protocol/src/io/tx.rs:162-174 | a send on any clone, or the error once the state was taken |
| `Tx.Handle.PollFlush` | protocol/src/io/tx.rs:153-161 | a flush on any clone, or the error once the state was taken |
| `Tx.Handle.Take` | protocol/src/io/tx.rs:203-215 | the state leaves the handle whole, and the error takes its place |
| `Tx.DoSend.Poll` | protocol/src/io/tx.rs:258-280 | a poll sends message after message and then flushes; a message reported as sent is always an empty `Sending` |
| `TxSteps.SendKeeps` | protocol/src/io/tx.rs:83-99 | one send keeps the ledger and accepts its message at most once; only a taken message is reported as sent, and then fewer than 2^20 bytes are left |
| `TxSteps.FlushDelivers` | protocol/src/io/tx.rs:52-63 | a flush that succeeds has written everything accepted by anyone and flushed the writer after it |
| `TxSteps.CloseKeeps` | protocol/src/io/tx.rs:101-129 | closing accepts nothing, and once past draining without a loss has written every accepted frame |
| `TxOutcomes.FlushOutcome` | protocol/src/io/tx.rs:52-63 | the exact outcome of a flush by the answers used: the failure of a write before that of the flush, success if everything is written and flushed, and otherwise pending |
| `TxOutcomes.BackgroundOutcome` | protocol/src/io/tx.rs:64-81 | in the background a flush fails exactly if the connection has, and succeeds otherwise as soon as fewer than 1048576 bytes are left |
| `TxOutcomes.SendOutcome` | protocol/src/io/tx.rs:83-99 | the same of a send, with the exact condition for its message being taken |
| `TxOutcomes.SmallMessageIsSent` | protocol/src/io/tx.rs:83-99 | on a connection that does not fail, however long it is not ready, a message is sent at once if it and what is buffered are less than 1048576 bytes |
| `TxOutcomes.CloseOutcome` | protocol/src/io/tx.rs:101-129 | draining goes on while bytes are left and no write fails; bytes are given up only for a failed or empty write; what closing returns is what the shutdown answered |
| `Senders.SendLedger` | protocol/src/io/tx.rs:38-174 | after any run of any senders, written and buffered bytes are the wire form of what was accepted; each future has had a prefix of its messages accepted, in order, and all of them if it completed |
| `Senders.BufferIsBounded` | protocol/src/io/tx.rs:64-99 | with bodies of at most L bytes and any number of senders the buffer never exceeds 2^20 + L bytes |
| `Senders.FlushMeansDelivered` | protocol/src/io/tx.rs:264-279 | when a flushing future completes, everything accepted by then is written and flushed, and stays so |
| `SenderOutcomes.TurnFails` | protocol/src/io/tx.rs:264-279 | a turn of a future on an open handle fails exactly if the connection fails in it, and waits with a message only behind 1048576 bytes |
| `SenderOutcomes.FailuresHaveCauses` | protocol/src/io/tx.rs:38-174 | over all runs, a future fails only on a closed handle or on a connection that has failed |
| `Senders.ClosedTurn` | protocol/src/io/tx.rs:157-172 | after the state was taken a future changes nothing, and fails if and only if it has a message left or a flush to do |
| `Senders.ClosingIsAbsorbing` | protocol/src/io/tx.rs:203-215 | once taken the state is never put back, nothing more is accepted, and only the closer writes |
| `Senders.ClosingIsComplete` | protocol/src/io/tx.rs:101-129 | a close that met no zero or failing write has written every frame ever accepted, those appended between its flush and its take included |
| `SenderOutcomes.CloseReturns` | protocol/src/io/tx.rs:101-129 | over all runs, a close has lost bytes only if a write failed or wrote nothing, and returns what the shutdown has answered |
| `SenderOutcomes.HealthyCloseIsComplete` | protocol/src/io/tx.rs:101-129 | if no write ever fails or writes nothing, however often it is not ready, a close past draining has written every accepted frame |
| `Senders.PollIsTurns` | protocol/src/io/tx.rs:264-279 | a whole poll of a future is a run of locked calls, so runs of locked calls cover runs of polls |
| `Framing.ReadDelivers` | protocol/src/io/rx.rs:67-134 | one poll delivers the first frame of what is buffered and unread, or a parse error that consumes that frame only, or the end when there is none, and otherwise loses nothing |
| `RxOutcomes.ReadOutcome` | protocol/src/io/rx.rs:67-134 | a poll fails to read exactly if its last read has failed, and is pending only because that read was not ready, whatever was read before |
| `Framing.ChunkingIsInvisible` | protocol/src/io/rx.rs:67-134 | what repeated polls deliver depends on the total stream only: a prefix of its non-blank lines, an unterminated tail included, and all of them once the end was reported |
| `Framing.EndRepair` | protocol/src/io/rx.rs:116-129 | the newline pushed at end-of-file changes no frame |
| `Rx.MsgReader.PollReadMessage` | protocol/src/io/rx.rs:67-134 | the reading loop does what the specification function says, and ends by a measure in which the newline is pushed at most once |
| `Rx.MsgBuffer.Pop` | protocol/src/io/rx.rs:27-42 | emptying and refilling slots removes the first message that matches and nothing else, or leaves the queue as it was |
| `Rx.RxLocal.PollRecv` | protocol/src/io/rx.rs:160-208 | parked messages first, then reading and parking until one matches |
| `Rx.RxLocal.Close` | protocol/src/io/rx.rs:209-212 | unparsed bytes and parked messages are handed out, and none are kept |
| `RxSteps.RecvSelects` | protocol/src/io/rx.rs:160-208 | a receive answers with the first item of the one log that matches or is malformed, and removes exactly it; otherwise nothing is removed and no match stays parked |
| `RxOutcomes.RecvOutcome` | protocol/src/io/rx.rs:160-208 | the same of a receive, over all the polls that it makes |
| `RxSteps.RecvTakesOwn` | protocol/src/io/rx.rs:160-208 | a receiver is handed its own values one by one in order, and has had them all when told the end |
| `RxSteps.RecvSparesOthers` | protocol/src/io/rx.rs:189-204 | a receive leaves to a disjoint receiver exactly what it would have had |
| `RxSteps.ScheduleIndependence` | protocol/src/io/rx.rs:244-281 | under every interleaving, disjoint receivers each get a prefix of their subsequence of the stream, and all of it at the end; malformed frames cost nobody a message |
| `EndToEnd.HeardCut` | protocol/src/io/rx.rs:77-134 | the first k bytes of the wire form are heard as the messages before the cut, the last perhaps without its newline, and one malformed frame exactly when the cut is inside a body |
| `EndToEnd.HeardWhole` | protocol/src/io/rx.rs:116-129 | the wire form, with or without its last newline, is heard as all the messages |
| `EndToEnd.EndToEnd` | protocol/src/io/tx.rs:38-99 | from any run of senders through a connection cut anywhere to any reader: delivered is a prefix of what the cut stream says, which is the accepted messages in acceptance order up to the cut |
| `EndToEnd.EndToEndReceivers` | protocol/src/io/rx.rs:160-208 | the same through any number of selective receivers |
| `EndToEnd.FlushedIsHeard` | protocol/src/io/tx.rs:264-279 | after a completed flush, a reader that is told the end of an arrival not cut before what the flush covered has been handed, first of all, exactly what was accepted by then, whatever was sent later |
| `EndToEnd.ClosedIsHeard` | protocol/src/io/tx.rs:101-129 | after a close without a loss, the uncut stream read to its end is the accepted messages, no more and no less |
| `EndToEnd.ClosedIsReceived` | protocol/src/io/tx.rs:101-129 | the same through any number of selective receivers |
| `LineReader.OutputReader.ReadLineOrChunk` | agent/src/main.rs:226-259 | the reading loop in both modes does what the specification function says |
| `LineReader.PieceSplits` | agent/src/main.rs:226-259 | one call hands out a non-empty front of what is ahead, in line mode its first line; a cancelled call loses nothing |
| `LineReader.PieceOutcome` | agent/src/main.rs:226-259 | a call fails exactly if a read has, and is pending only because a read is not ready; in chunk mode it reads once and hands on what that brought |
| `LineReader.PiecesOfStream` | agent/src/main.rs:109-124 | over any chunking and cancellation the pieces are non-empty and concatenate to the stream; in line mode they are its lines |
| `LineReader.LinesAreLines` | agent/src/main.rs:233-246 | a line has its only newline at its end, which only the last may lack |
| `AgentTrace.OneTurn` | agent/src/main.rs:80-83 | sending one message adds it to the trace exactly when the buffer accepts it |
| `AgentTrace.OutputKeeps` | agent/src/main.rs:103-152 | every step of an output task keeps what was read, what is in flight and what was sent accounted for |
| `AgentTrace.ForwardKeeps` | agent/src/main.rs:86-102 | every step of the stdin task keeps what was received, written and left accounted for |
| `AgentRun.StepKeeps` | agent/src/main.rs:60-222 | every step of the agent, of main or of any task, keeps the invariant |
| `AgentTheorems.TraceLanguage` | agent/src/main.rs:60-205 | in every reachable state the accepted messages are nothing, or `started` and a shuffle of stdout data and closed, stderr data and closed, one stdin closed and one exited, and then at most one error, with nothing after it |
| `AgentTheorems.SuccessfulRun` | agent/src/main.rs:186-197 | a run whose result is Ok has sent each closed once and exited once and no error, and every byte is written and flushed |
| `AgentOutcomes.StatusIsTheJoin` | agent/src/main.rs:186-197 | there is no result before the join; then it is Ok if and only if all four tasks have ended well |
| `AgentOutcomes.BadEndsHaveCauses` | agent/src/main.rs:60-194 | main or a task has ended badly if and only if one of its events has met an error: of a receive, a read, a write, a send, a spawn, a wait, a close or the join |
| `AgentFaults.AwaitLeaves` | agent/src/main.rs:63-66 | waiting for `exec` fails only because of a malformed frame, a failed read or a stream without `exec`, and goes on only because a read is not ready |
| `AgentVerdicts.BadEndsComeFrom` | agent/src/main.rs:60-194 | over all runs, a bad end comes from an answer of the surroundings that the part deals with |
| `AgentVerdicts.FailuresComeOut` | agent/src/main.rs:86-194 | failures are not passed over: one of the connection before the result, and one of a pipe of the child, ends a task badly |
| `AgentVerdicts.HealthyRun` | agent/src/main.rs:60-205 | if nothing fails, whatever the schedule and however often anything is not ready, no part ends badly, and a run that is over is Ok |
| `AgentVerdicts.ExecIsObeyed` | agent/src/main.rs:63-67 | once started, the first `exec` of the host's stream sets the mode of reading, by lines unless it says otherwise |
| `AgentDeliveries.FailureIsReported` | agent/src/main.rs:196-205 | the trace of a failed run ends with the error once sending it is over, unless the connection has failed; that of a run that is Ok has none |
| `AgentDeliveries.EverythingIsDelivered` | agent/src/main.rs:208-214 | when main is finished and the connection has not failed, everything accepted is written and flushed |
| `AgentTheorems.OutputPreserved` | agent/src/main.rs:103-152 | at all times the stdout payloads are a prefix of what the child writes, and all of it once `closed` is sent; in line mode they are its lines; likewise stderr |
| `HostTheorems.HostHears` | protocol/src/io/rx.rs:244-281 | a host with any pairwise disjoint receivers, that reads the agent's connection in any chunks, cut anywhere, polling in any order: each has a prefix of what its filter takes out of the trace, and all of it after a successful run read to its end |
| `HostTheorems.HostHearsOutput` | agent/src/main.rs:103-152 | in any such host, what the receiver for an output stream has been handed preserves what the child writes there, and is all of it once a closed is among it or the successful run was read to its end |
| `HostTheorems.HostHearsBytes` | protocol/src/lib.rs:127-134 | the same for a receiver of the data alone: a prefix of what the child writes, in line mode of its lines, and all of it at the end |
| `HostTheorems.HostHearsExit` | agent/src/main.rs:168-179 | in any such host, the receiver for the exit is handed at most one status, one that a wait gave, and exactly one after a successful run read to its end |
| `HostTheorems.HostReceiversFit` | protocol/src/lib.rs:35-197 | the receivers for started, the three streams, exited and error are such a host, and every message that the agent can send has one |
| `AgentTheorems.StdinForwarded` | agent/src/main.rs:86-102 | the child's stdin has received a prefix of the host's stdin data before the first closed, and all of it when the task goes on to say closed, messages before `exec` and malformed frames in between included |
| `AgentDeliveries.StdinIsWritten` | agent/src/main.rs:93-97 | as long as no write to the child has failed or taken nothing, it has been written all the data that the task has received, but for what is being written, also when the task has ended badly |
| `AgentTheorems.SignalsForwarded` | agent/src/main.rs:160-167 | the signals delivered are the first of those the host sends, in order |
| `AgentTheorems.ExitDelivered` | agent/src/main.rs:168-179 | when the exit task has ended well the exit status is written and flushed, whatever the other tasks are still doing |
| `AgentTheorems.TraceIsCaused` | agent/src/main.rs:80-83 | the process identifier in `started` is one that a spawn gave, the status in `exited` one that a wait gave, and the text in `error` one that main has met |
| `OutputTasks.CopyTask.Select` | agent/src/main.rs:111-124 | one poll of `select!`, whose branches come in either order, is steps of the output task; it is kept waiting only if the read is not ready |
| `OutputTasks.CopyTask.Poll` | agent/src/main.rs:106-127 | the loop of an output task ends, and is a run of the state machine that ended or that found its read or its send not ready |
| `OutputTasks.CopyAdvances` | agent/src/main.rs:106-127 | a step of an output task that is not kept waiting brings it nearer to its end: less to receive, to read or to send |
| `InputTasks.StdinCopy.WriteAll` | agent/src/main.rs:96 | writing it all, from poll to poll, is the one step of the state machine, and waits exactly when that does |
| `InputTasks.StdinCopy.Poll` | agent/src/main.rs:89-102 | the same of the stdin task: receive, write it all, and close at the end |
| `InputTasks.FeedAdvances` | agent/src/main.rs:89-102 | a step of the stdin task that is not kept waiting brings it nearer to its end |
| `ExitTasks.ExitWatch.Poll` | agent/src/main.rs:156-183 | the same of the exit task; it ends although being told the end of the host's stream does not end its loop |
| `ExitTasks.WatchAdvances` | agent/src/main.rs:156-183 | a step of the exit task that is not kept waiting for the child or the connection brings it nearer to its end |
| `AgentParts.CopyLifts` | agent/src/main.rs:103-152 | a run of an output task alone is a run of the whole agent that touches the connection, that task and nothing else |
| `AgentParts.FeedLifts` | agent/src/main.rs:86-102 | the same of the stdin task |
| `AgentParts.WatchLifts` | agent/src/main.rs:153-183 | the same of the exit task |
| `AgentJoin.Tasks.Poll` | agent/src/main.rs:188 | a poll of the join polls the tasks in the source's order; it is a run of the agent, and every task that has not ended found what it needs not ready |
| `AgentProgram.MainSending` | agent/src/main.rs:199-209 | a poll of what main sends is one step of the state machine or two, and brings main where the outcome says |
| `AgentParts.MainAdvances` | agent/src/main.rs:60-214 | a step of main that is not kept waiting brings it nearer to its end |
| `AgentProgram.Program.Poll` | agent/src/main.rs:60-214 | one poll of `main` is a run of the state machine, and stops short of the end only when what main waits for is not ready, and in the join what every task needs |
| `AgentProgram.RunProgram` | agent/src/main.rs:58-222 | the program as objects, in any surroundings and polled any number of times: its trace is of the language and preserves the child's output; its result is Ok if and only if all tasks ended well, and Ok if nothing failed; and what it has written is the trace when it is done and the connection has not failed |
| `Mounts.UnescapeMountPoint` | liveness/src/metrics.rs:233-256 | the decoding loop computes the specification function |
| `Mounts.UnescapeEscape` | liveness/src/metrics.rs:233-256 | every path is read back from its escaped form |
| `Mounts.MountPointSurvives` | liveness/src/metrics.rs:157-171 | the mount point decoded from the kernel's line for an absolute path is that path up to its first white space that the kernel does not escape; so it is the path if and only if there is none |
| `Mounts.MountPointReported` | liveness/src/metrics.rs:157-174 | a kernel's line reports its path if and only if all its white space is escaped, it is no 9p, `ro` does not stand among the options, and its first directory is not `run`, `dev` or `nix` |
| `Mounts.LineQualifies` | liveness/src/metrics.rs:157-185 | and it qualifies for the report if and only if it has blocks besides |
| `Mounts.RuntimeMounts` | liveness/src/metrics.rs:227-231 | the runtime mounts are those whose first directory is `run`, `dev` or `nix` |
| `Mounts.WordsAppend` | liveness/src/metrics.rs:158 | splitting at white space: the words of two texts with white space in between are the words of the one and then those of the other |
| `Mounts.NoBreakSpaceIsLost` | liveness/src/metrics.rs:158 | the line of the path with a no-break space, `/`, U+00A0, `a`, is taken for one of the root |
| `Mounts.Disks` | liveness/src/metrics.rs:152-202 | the loop with its two indexes reports exactly the qualifying lines whose device differs from that of every earlier qualifying line, in table order |
| `Mounts.SeenIsRedundant` | liveness/src/metrics.rs:175-178 | the index of mount points changes nothing in the result |
| `Mounts.OneEntryPerDevice` | liveness/src/metrics.rs:148-151 | each device with a qualifying line is reported exactly once |

## Left out

- Wakers, fairness and liveness of the async runtime: polls are steps in any order, and only safety and the termination of each call are proved.
- AgentProgram.Program.Poll: promises no particular number of steps, only that a poll which is pending ended in a wait; tasks and `main` each keep one slot in which their futures replace one another, where the source makes a new future each time.
- Process spawning, users, signals and the locking of the child (`agent/src/process.rs`): the child is two byte streams that end, a pipe that takes writes, and a result of waiting.
- The effect of closing a raw descriptor when the host closes stdout or stderr (`agent/src/main.rs:120-122`): later reads are whatever the schedule of the stream says, a failure included, but never bytes of another file.
- Serialization failures (`protocol/src/io/tx.rs:231-256`): printing a message is total here.
- Error texts and their wrapping (`protocol/src/io/arc_err.rs`), mutex poisoning, logging, command-line flags, the memory-safety argument of the unsafe buffer code, and the background close of a handle that is dropped.
- The last flush and shutdown of the agent's stdout after its close (`agent/src/main.rs:211-212`).
- JSON that the printer never produces and only a foreign peer could send: fractions and exponents, positional arrays in place of objects, serde_json's limit on nesting, and strings in unknown members, which serde_json skips without looking at UTF-8 or surrogates; such frames count as malformed or, for the nesting, as readable.
- Splitting the text of the mount table into lines, and the system calls behind usage, device and label of a mount point, which are functions of it while the table is read.
- The liveness transport and agent loop, CPU percentage, memory and service reports: thin wrappers and short functions.
