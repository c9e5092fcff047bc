# Interprocess protocols of myfreelib, verified

The demos under `packages/sys_call_demo` contain six protocols between processes. Each is modelled here as a transition
system with a program counter for every process, the kernel objects between them and the history of what went in and what
came out, and properties of every interleaving are proved.

| protocol | transition system and theorems | programs as statements over variables |
|---|---|---|
| System V shared memory, writer and reader | `ShmTransfer.dfy`, `ShmSegment.dfy` (the buffer), `ShmRuns.dfy` (runs it has) | `ShmPrograms.dfy` |
| System V message-queue file server | `FileSession.dfy` (one client), `FileServer.dfy` (all), `OutputTrace.dfy`, `OutputFile.dfy` (the file they share), `AnyCutting.dfy` (runs it has) | `FilePrograms.dfy` |
| POSIX message queue with signal notification | `MqNotify.dfy` | `MqPrograms.dfy` |
| POSIX shared-memory mailbox | `Mailbox.dfy`, `MailboxBuffer.dfy` | `MailboxPrograms.dfy` |
| FIFO sequence-number server | `SeqRanges.dfy`, `SeqServer.dfy`, `SeqOrder.dfy` | `SeqPrograms.dfy` |
| pipe barrier | `PipeBarrier.dfy` | `BarrierPrograms.dfy` |

`Runs.dfy` defines runs of a transition relation and the two rules used throughout (an inductive invariant, a measure that
every step lowers); `Streams.dfy` and `Sums.dfy` hold facts on byte streams and on sums over processes.

A step is one statement that other processes can observe. `Enabled` says when a call would not block and `Apply` what it
does; `Next` is the resulting relation and a run is any sequence of states it relates, so a lemma about runs is about
every schedule. Every read of data returns any number of bytes that read() may return
(`ShmRuns.AnyCuttingIsTransferred`, `AnyCutting.AnyCuttingIsServed`), and lemmas named `...BlocksExactly` say from the
histories when a call blocks. The classes are the same programs as assignments to fields; each method's contract ties
its effect to `Enabled` and `Apply`, and says that a call that would block changes nothing; `RunToEnd` (`SigNotify`,
`Sync`) runs all programs of a protocol to their end under a schedule that its caller chooses. The kernel's part follows
the semop(), msgsnd(), msgrcv(), mq_notify(), mq_send(), sem_wait(), open(), read() and write() pages of IEEE Std
1003.1-2017, System Interfaces.

Several expectations hold only under a condition, which is proved to be the exact one:

- Start-up of the shared-memory transfer is safe exactly when no segment is left over (`ShmTransfer.StartUpSafeExactly`).
- In a run no wake-up is lost exactly when the message queue is empty at the step that registers first
  (`MqNotify.NoLostWakeUpExactly`). The code does not see to that: from every start some run makes the receiver deaf for
  good (`MqNotify.DeafFromAnyStart`, `MqNotify.DeafForever`).
- The mailbox prints everybody's words in every run exactly when no client with words has another beside it
  (`Mailbox.AllPrintedExactly`), because a client that meets the end of its input leaves with the token and stops it
  (`Mailbox.StuckExactly`, `Mailbox.LeaverSilencesOthers`).
- The file that clients of the message-queue server write is right in every run exactly when no two of them may open it, or
  when all they ask for is empty, because all of them open the same path (`OutputFile.OutputIsRightExactly`); it is right in
  any run whose clients do not overlap (`OutputFile.OutputIsTheFile`). A client that asks for that path itself counts.
- A file that can be opened and does not change is received whole, whatever other clients ask for, exactly when no read of
  it fails before its end and no send of a chunk fails; such a failure ends the transfer like the end of the file, and the
  client cannot tell (`FileSession.OkMeansReportOk`, `FileServer.CompleteRunServesAll`).
- A client that asks for the output file, which it truncates while its child reads it, gets what was in it exactly when it
  is alone and that is one byte at most, or when nobody has anything to write (`OutputFile.ReadsItselfExactly`).

A sequence server whose clients may die answers every survivor unless it has entered the open of the FIFO of a client that
died before opening it; there it waits for ever (`SeqServer.SurvivorsAreAnswered`, `SeqServer.WaitsForEver`).

Where code and comments differ, the code is followed: the message server's "Remove message queue" passes the queue's key as
a command and removes nothing, so the model removes no server queue; the sender's "timed" send has a time-out in the past
and so is refused at once by a full queue.

## Model

| member | source | states |
|---|---|---|
| ShmTransfer.TransferIsSafe | packages/sys_call_demo/sysv_shm_demo/sysv_shm_writer.c:85-121 | in every state of every run that starts without a segment: output, chunk in the buffer and unread input make up the input, chunk by chunk; writer and reader never own the buffer together and both semaphores are 0 or 1; the reader loops only after SETALL; nothing is removed before the reader is done; the transfer counts differ by 0 or 1 |
| ShmTransfer.CompleteRunDelivers | packages/sys_call_demo/sysv_shm_demo/sysv_shm_reader.c:53-106 | a run that cannot go on has written the whole input in the chunks it was read in; both programs have exited with the same `bytes` and `xfrs`; semaphores and segment are gone |
| ShmTransfer.AttachedRunTerminates | packages/sys_call_demo/sysv_shm_demo/sysv_shm_reader.c:53-102 | once the reader is in its loop every schedule ends within 13 steps per input byte and 27 more, without fairness |
| ShmTransfer.NotStuck | packages/sys_call_demo/sysv_shm_demo/sysv_shm_writer.c:85-130 | a reachable state in which not both programs have exited has an enabled step |
| ShmTransfer.WriterBlocksExactly | packages/sys_call_demo/sysv_shm_demo/sysv_shm_writer.c:86-130 | the writer waits exactly while a chunk is filled and not yet written out and given back, between its semops only while the reader has not marked its buffer busy, and at the end until the reader has made its last semop; a reader need not be there, and a read may return any number of bytes up to 1024 |
| ShmTransfer.ReaderBlocksExactly | packages/sys_call_demo/sysv_shm_demo/sysv_shm_reader.c:54-102 | the reader waits exactly until a chunk not yet written out, or the end of the input, is handed over, and between its semops only while the writer has not marked its buffer busy |
| ShmTransfer.StartUpSafeExactly | packages/sys_call_demo/sysv_shm_demo/sysv_shm_writer.c:51-83 | no run lets the reader into its loop before SETALL if and only if no segment is left over from an earlier run; a stale semaphore set is harmless |
| ShmTransfer.StaleSegmentRun | packages/sys_call_demo/sysv_shm_demo/sysv_shm_reader.c:35-51 | the run that breaks start-up when a segment is left over: the reader overtakes the writer between semget and SETALL |
| ShmRuns.AnyCuttingIsTransferred | packages/sys_call_demo/sysv_shm_demo/sysv_shm_writer.c:85-121 | for every cutting of the input into chunks of 1 to 1024 bytes some run ends with exactly these chunks written out |
| ShmRuns.WriterRunsAhead | packages/sys_call_demo/sysv_shm_demo/sysv_shm_writer.c:86-116 | for every first chunk the writer fills and releases the buffer before any reader has been started |
| ShmRuns.ReaderStartsEarly | packages/sys_call_demo/sysv_shm_demo/sysv_shm_reader.c:35-51 | the reader finds the semaphores before they are initialised and before the segment exists, and is in its loop before the writer is |
| ShmRuns.StaleSegmentIsKept | packages/sys_call_demo/sysv_shm_demo/sysv_shm_writer.c:74-78 | a segment left over from before is taken with its contents |
| ShmSegment.SegmentRemembers | packages/sys_call_demo/sysv_shm_demo/sysv_shm_writer.c:95 | in every state of every run each byte of the buffer is the one that the last chunk long enough left there, and zero where none has reached |
| ShmTransfer.StepKeepsInv | packages/sys_call_demo/sysv_shm_demo/sysv_shm_writer.c:86-121 | every step of either program keeps the invariant that ties both program counters, both semaphores, the buffer, the streams and the counters, and keeps the input |
| ShmTransfer.FillKeepsStreams | packages/sys_call_demo/sysv_shm_demo/sysv_shm_writer.c:95-99 | the read over the first bytes of the buffer appends exactly the bytes read to what has been taken from the input |
| ShmTransfer.WriteOutKeepsStreams | packages/sys_call_demo/sysv_shm_demo/sysv_shm_reader.c:62-70 | the write call appends exactly the chunk held to the output |
| ShmTransfer.InvMeansConserved | packages/sys_call_demo/sysv_shm_demo/sysv_shm_reader.c:62-70 | output, buffer and unread input make up the input in every state that satisfies the invariant |
| ShmTransfer.InvMeansExclusive | packages/sys_call_demo/sysv_shm_demo/sysv_shm_writer.c:90-105 | exclusion on the buffer from passing the wait to releasing the other side, binary semaphores, safe start-up and tear-down |
| ShmTransfer.InvMeansLeadOk | packages/sys_call_demo/sysv_shm_demo/sysv_shm_writer.c:85 | writer and reader transfer counts, each joined to the semop before it, differ by 0 or 1; the raw variables by -1 up to 2 |
| ShmTransfer.InvMeansObjectsPresent | packages/sys_call_demo/sysv_shm_demo/sysv_shm_reader.c:54-86 | every semop and buffer access of a running program finds semaphores, segment and a byte count within the buffer |
| ShmTransfer.ObjectsRemoved | packages/sys_call_demo/sysv_shm_demo/sysv_shm_writer.c:16-26 | the writer leaves neither semaphores nor segment behind |
| ShmTransfer.AttachedStepLowers | packages/sys_call_demo/sysv_shm_demo/sysv_shm_writer.c:85-130 | each step after the reader attached lowers a measure of remaining input and phase |
| ShmPrograms.SharedMemory.constructor | packages/sys_call_demo/sysv_shm_demo/sysv_shm_writer.c:12-14 | a start without a segment satisfies the invariant, whatever semaphore set is left over |
| ShmPrograms.SharedMemory.WriterSetUp | packages/sys_call_demo/sysv_shm_demo/sysv_shm_writer.c:51-64 | semget and SETALL take the writer from state to state as the transition relation says, and never block |
| ShmPrograms.SharedMemory.WriterCreateShm | packages/sys_call_demo/sysv_shm_demo/sysv_shm_writer.c:74-78 | shmget creates a zero-filled segment, or finds the one that exists |
| ShmPrograms.SharedMemory.WriterAttach | packages/sys_call_demo/sysv_shm_demo/sysv_shm_writer.c:79-85 | shmat attaches the segment and the counters start at 0 |
| ShmPrograms.SharedMemory.WriterFill | packages/sys_call_demo/sysv_shm_demo/sysv_shm_writer.c:95-99 | read overwrites the first n bytes of the buffer in place, keeps the others and sets `cnt` |
| ShmPrograms.SharedMemory.WriterSemop | packages/sys_call_demo/sysv_shm_demo/sysv_shm_writer.c:86-116 | the wait, the release of the reader and the own busy mark; false, and nothing changed, exactly when the semop would block |
| ShmPrograms.SharedMemory.WriterCounts | packages/sys_call_demo/sysv_shm_demo/sysv_shm_writer.c:85-121 | the test for end of file and the counter updates, on an attached segment |
| ShmPrograms.SharedMemory.WriterAwaitsLast | packages/sys_call_demo/sysv_shm_demo/sysv_shm_writer.c:123-130 | the final wait blocks until the reader has released; only then the semaphores go |
| ShmPrograms.SharedMemory.WriterTearDown | packages/sys_call_demo/sysv_shm_demo/sysv_shm_writer.c:16-26 | after the semaphores the mapping goes and then the segment |
| ShmPrograms.SharedMemory.ReaderLooksUp | packages/sys_call_demo/sysv_shm_demo/sysv_shm_reader.c:35-45 | each look-up gives up when its object does not exist |
| ShmPrograms.SharedMemory.ReaderAttach | packages/sys_call_demo/sysv_shm_demo/sysv_shm_reader.c:47-53 | the attachment, or giving up when the segment is gone; the counters start at 0 |
| ShmPrograms.SharedMemory.ReaderSemop | packages/sys_call_demo/sysv_shm_demo/sysv_shm_reader.c:54-86 | the wait, the release of the writer and the own busy mark; false, and nothing changed, exactly when the semop would block |
| ShmPrograms.SharedMemory.ReaderCopies | packages/sys_call_demo/sysv_shm_demo/sysv_shm_reader.c:62-70 | test for the end, byte count and write, always on an attached segment and within the buffer |
| ShmPrograms.SharedMemory.ReaderCounts | packages/sys_call_demo/sysv_shm_demo/sysv_shm_reader.c:53 | one more transfer counted, and back to the wait |
| ShmPrograms.SharedMemory.ReaderTearDown | packages/sys_call_demo/sysv_shm_demo/sysv_shm_reader.c:90-102 | detach, then the last release of the writer |
| ShmPrograms.SharedMemory.ReaderRestarts | packages/sys_call_demo/sysv_shm_demo/sysv_shm_reader.c:35-45 | a reader that gave up may be started again |
| ShmPrograms.SharedMemory.RunToEnd | packages/sys_call_demo/sysv_shm_demo/sysv_shm_reader.c:35-106 | both programs under any schedule, with a reader that may come too early and be started again: the final state is the one that these attempts lead to, with the whole input written, counters agreed and objects removed |
| FileServer.EverySessionIsCorrect | packages/sys_call_demo/sysv_msg_demo/sysv_msg_server.c:42-64 | for any number of clients and any interleaving each client has written a prefix of the file it asked for, or, if it asked for the output file, of what its child has read of that; written bytes, message in hand, private queue, chunk held by the child and unread file make it up; the message grammar, the safety of removing the queue and the report hold too |
| FileServer.CompleteRunServesAll | packages/sys_call_demo/sysv_msg_demo/sysv_msg_client.c:27-98 | when nothing but a failing call can go on every client is gone: one with too long a path received nothing and never had a request anywhere, one that was refused got exactly the FAILURE text, any other, a client with a fixed file among them, has taken chunks and one END, reported its byte count and as many messages as it took, and holds the whole file (of the output file: all its child read) exactly when no call failed at the cost of bytes |
| FileServer.FaultlessRunDelivers | packages/sys_call_demo/sysv_msg_demo/sysv_msg_server.c:42-64 | a complete run without a failing call gives every client whose file can be opened, and does not change, the whole file, whatever the others ask for |
| FileServer.IdleMeansDone | packages/sys_call_demo/sysv_msg_demo/sysv_msg_server.c:99-122 | no deadlock among server, children and clients, whatever the queue limit from RESP_MSG_SIZE on, even if no failing call helps |
| FileServer.ServedInOrder | packages/sys_call_demo/sysv_msg_demo/sysv_msg_server.c:99-122 | children are forked in the order in which requests were submitted: those forked for and then those outstanding are all that were submitted, in every state of every run |
| FileServer.ServerBlocksExactly | packages/sys_call_demo/sysv_msg_demo/sysv_msg_server.c:100 | the server blocks exactly when every client that has submitted has its child, and otherwise takes the oldest request without one |
| FileServer.SubmitBlocksExactly | packages/sys_call_demo/sysv_msg_demo/sysv_msg_client.c:59 | a submission blocks exactly when the requests not yet taken fill the queue, at 304 bytes each |
| FileServer.ReceiveBlocksExactly | packages/sys_call_demo/sysv_msg_demo/sysv_msg_client.c:64-84 | a client blocks exactly when it has taken all that its child has sent, and takes the oldest message |
| FileServer.SendBlocksExactly | packages/sys_call_demo/sysv_msg_demo/sysv_msg_server.c:51-63 | a send of the child blocks exactly when the bytes sent and not yet taken, and those of the message, exceed the limit |
| FileServer.RunTerminates | packages/sys_call_demo/sysv_msg_demo/sysv_msg_server.c:55-63 | every run ends within five steps per file byte and fourteen per client; the output file never grows beyond the longest file |
| FileServer.StepKeepsBounded | packages/sys_call_demo/sysv_msg_demo/sysv_msg_client.c:79-90 | no step makes the output file, or what a child has read of it, longer than the longest file |
| FileServer.LongPathAsksNothing | packages/sys_call_demo/sysv_msg_demo/sysv_msg_client.c:32-35 | no outstanding request ever belongs to a client whose path is too long |
| FileServer.StepKeepsInv | packages/sys_call_demo/sysv_msg_demo/sysv_msg_server.c:99-122 | every step of any process keeps: outstanding requests and clients awaiting a child match one to one, with the right path; every session invariant holds |
| FileServer.AppendRequest | packages/sys_call_demo/sysv_msg_demo/sysv_msg_client.c:54-62 | a submitted request is the only one of its client and carries its path |
| FileServer.ForkKeepsInv | packages/sys_call_demo/sysv_msg_demo/sysv_msg_server.c:110-119 | the forked child serves exactly the client and the path of the request received |
| OutputTrace.OutputIsAsWritten | packages/sys_call_demo/sysv_msg_demo/sysv_msg_client.c:76-94 | however many clients have the output file open together: it ends where the nonempty writes since the last truncation reach, every byte is the one at that place of what its last writer has written, and zero if nobody wrote it; in the record each client truncates once and then writes one message behind the other |
| OutputTrace.WriteKeepsFile | packages/sys_call_demo/sysv_msg_demo/sysv_msg_client.c:79-90 | a write puts the client's own bytes at its offset, keeps all others, and fills a gap with zeros |
| OutputTrace.StepKeepsRecord | packages/sys_call_demo/sysv_msg_demo/sysv_msg_client.c:76-94 | the writes of a client make up what it has written, each at the offset where the last one ended |
| AnyCutting.AnyCuttingIsServed | packages/sys_call_demo/sysv_msg_demo/sysv_msg_server.c:55-63 | an idle server serves a file in any cutting into pieces of 1 to 8192 bytes: in some run without a failing call the client takes exactly these pieces and one END |
| OutputFile.OutputIsRightExactly | packages/sys_call_demo/sysv_msg_demo/sysv_msg_client.c:76-94 | the output file, which every client opens under one name, holds what each client that has it open has written, in every run, if and only if no two clients may open it, or all that they ask for is empty; a client that asks for the output file itself counts, if the file exists or another client will create it; the same holds of the runs in which no call fails |
| OutputFile.ReadsItselfExactly | packages/sys_call_demo/sysv_msg_demo/sysv_msg_client.c:76-94 | a client that asks for the output file reports just what was in it at the start, in every run without a failing call, if and only if it cannot be served, or nobody has anything to write, or it is alone and the file holds one byte at most |
| OutputFile.LosesItself | packages/sys_call_demo/sysv_msg_demo/sysv_msg_server.c:56-60 | whatever number of bytes the child reads of the output file first, a run without a failing call in which the client reports these and a success: it has truncated the rest away |
| OutputFile.AskingBesideSpoils | packages/sys_call_demo/sysv_msg_demo/sysv_msg_client.c:76-79 | one client asks for the output file, which need not exist yet, beside one with a nonempty file: a run without a failing call spoils what the other has written |
| OutputFile.SpoilingRun | packages/sys_call_demo/sysv_msg_demo/sysv_msg_client.c:76-79 | two clients that may open the output file, one with something to write: a run without a failing call in which the second truncates it after the first has written |
| OutputFile.OutputIsTheFile | packages/sys_call_demo/sysv_msg_demo/sysv_msg_client.c:75-97 | when no two clients have the output file open together, a client about to report finds there the whole file it asked for exactly when no call for it failed at the cost of bytes; one that asked for the output file finds what its child read |
| OutputFile.OutputIsRight | packages/sys_call_demo/sysv_msg_demo/sysv_msg_client.c:76-94 | without overlap the output file always holds what the client inside has written |
| OutputFile.BringToOpen | packages/sys_call_demo/sysv_msg_demo/sysv_msg_client.c:54-78 | any client whose file can be opened is brought from an idle service to where it has truncated the output file and not yet written, without a failing call |
| OutputFile.StepKeepsJustified | packages/sys_call_demo/sysv_msg_demo/sysv_msg_server.c:47-53 | every step keeps: the output file exists, and a child has opened its file, only where that may come about from the start |
| FileSession.FinalMessageEmptiesQueue | packages/sys_call_demo/sysv_msg_demo/sysv_msg_client.c:14-18 | when the client has taken a message that is not DATA its queue is empty and the child has made its last send |
| FileSession.NotChunkIsLast | packages/sys_call_demo/sysv_msg_demo/sysv_msg_server.c:47-63 | only the last message of a finished child is not a chunk |
| FileSession.FailureTextReads | packages/sys_call_demo/sysv_msg_demo/sysv_msg_server.c:50-51 | the text of FAILURE is "Couldn't open ", the path, a full stop, a line feed and the terminating zero |
| FileSession.WholeTransferCounts | packages/sys_call_demo/sysv_msg_demo/sysv_msg_demo.h:24-33 | in DATA* END the number of chunks lies between the bytes divided by 8192, rounded up, and the bytes |
| FileSession.OkMeansConserved | packages/sys_call_demo/sysv_msg_demo/sysv_msg_server.c:55-60 | conservation between child, queue and client of a file that does not change, and of what was read of the output file |
| FileSession.OkMeansGrammarKept | packages/sys_call_demo/sysv_msg_demo/sysv_msg_server.c:47-63 | what a child has sent is FAILURE alone or chunks, ended by one END when it has finished; removal of the queue is safe |
| FileSession.OkMeansReportOk | packages/sys_call_demo/sysv_msg_demo/sysv_msg_client.c:75-97 | the client reports exactly when it was not refused, and always for a fixed file; totBytes is what it wrote, numMsgs the messages it took, chunks and one END; when it is gone it has the whole file, or all its child read of the output file, exactly when no read failed before the end of the file and no send of a chunk failed |
| FileSession.ActionKeepsOk | packages/sys_call_demo/sysv_msg_demo/sysv_msg_server.c:42-64 | every statement of a child or client, and every failing read or send, keeps the session invariant |
| FileSession.ClientLocalKeepsOk | packages/sys_call_demo/sysv_msg_demo/sysv_msg_client.c:64-97 | the client writes out and counts each message once |
| FileSession.SentKeepsOk | packages/sys_call_demo/sysv_msg_demo/sysv_msg_server.c:57-63 | after a send the messages sent still obey the grammar, and they and the unread rest still make up the file |
| FileSession.ChildKeepsOk | packages/sys_call_demo/sysv_msg_demo/sysv_msg_server.c:47-63 | every statement of the child keeps: what it has sent is what the client has taken followed by what is queued |
| FileSession.ChildLocalKeepsOk | packages/sys_call_demo/sysv_msg_demo/sysv_msg_server.c:47-56 | opening and reading split the file into the chunk held and the rest |
| FileSession.OutputFollows | packages/sys_call_demo/sysv_msg_demo/sysv_msg_client.c:76-94 | truncating once and then writing at its own offset, a client keeps its bytes in the output file; no other statement changes the file |
| FileSession.SessionProgress | packages/sys_call_demo/sysv_msg_demo/sysv_msg_server.c:55-63 | a session that cannot act is done, waits for room in the request queue, or waits for its child; a blocked child always has a client that can receive |
| FileSession.ActionLowersRank | packages/sys_call_demo/sysv_msg_demo/sysv_msg_client.c:83-94 | every statement lowers a measure of unread file, queued messages and phase |
| FileSession.FinishedLeavesMessage | packages/sys_call_demo/sysv_msg_demo/sysv_msg_client.c:83-84 | a client still receiving from a finished child finds a message |
| FilePrograms.FileService.constructor | packages/sys_call_demo/sysv_msg_demo/sysv_msg_server.c:73-99 | the service starts with an empty request queue and clients that have done nothing |
| FilePrograms.FileService.SubmitRequest | packages/sys_call_demo/sysv_msg_demo/sysv_msg_client.c:54-62 | msgsnd of the request, blocking while the request queue is full |
| FilePrograms.FileService.ReceiveReply | packages/sys_call_demo/sysv_msg_demo/sysv_msg_client.c:64-84 | msgrcv takes the oldest message, blocking while there is none |
| FilePrograms.FileService.ClientStatement | packages/sys_call_demo/sysv_msg_demo/sysv_msg_client.c:32-98 | the path check, the loop test, the report and the removal of the queue |
| FilePrograms.FileService.ClientWrites | packages/sys_call_demo/sysv_msg_demo/sysv_msg_client.c:70-94 | the branch on FAILURE, the truncation of the output file, and every write to it at the client's own offset, with the counters |
| FilePrograms.FileService.ReceiveRequest | packages/sys_call_demo/sysv_msg_demo/sysv_msg_server.c:99-108 | the server takes the oldest request, or blocks |
| FilePrograms.FileService.ForkChild | packages/sys_call_demo/sysv_msg_demo/sysv_msg_server.c:110-119 | fork hands the request to a new child; the server goes back to receiving |
| FilePrograms.FileService.ChildStatement | packages/sys_call_demo/sysv_msg_demo/sysv_msg_server.c:47-56 | open, or read of the next 1 to 8192 bytes |
| FilePrograms.FileService.ChildOpensOutput | packages/sys_call_demo/sysv_msg_demo/sysv_msg_server.c:47-53 | open of the output file, refused while it does not exist |
| FilePrograms.FileService.ChildReadsOutput | packages/sys_call_demo/sysv_msg_demo/sysv_msg_server.c:56 | read of the output file as it is at that moment, at the child's own offset, which may lie behind its end |
| FilePrograms.FileService.ChildSend | packages/sys_call_demo/sysv_msg_demo/sysv_msg_server.c:51-63 | FAILURE, DATA or END is sent, blocking while the private queue has no room |
| FilePrograms.FileService.ChildCallFails | packages/sys_call_demo/sysv_msg_demo/sysv_msg_server.c:56-59 | a failing read or chunk send leads straight to END |
| FilePrograms.FileService.RunToEnd | packages/sys_call_demo/sysv_msg_demo/sysv_msg_server.c:42-122 | all programs under any schedule of processes, read sizes and failing calls: the final state is the one that these attempts lead to, every client is served, and without failing calls every client whose file can be opened and does not change holds all of it |
| FilePrograms.QueuePresent | packages/sys_call_demo/sysv_msg_demo/sysv_msg_client.c:14-18 | no send or receive ever meets a removed private queue |
| MqNotify.NoLostWakeUpExactly | packages/sys_call_demo/posix_mq_demo/posix_mq_demo.c:210-229 | in any run the receiver is never asleep beside a nonempty queue without a pending signal if and only if the queue was empty at the step that registered first |
| MqNotify.DeafFromAnyStart | packages/sys_call_demo/posix_mq_demo/posix_mq_demo.c:189-220 | from every start, with an empty queue or not, some run ends deaf: nothing keeps a message from arriving before the first registration |
| MqNotify.DeafForever | packages/sys_call_demo/posix_mq_demo/posix_mq_demo.c:210-229 | a receiver that registered on a nonempty queue is never woken, whatever is sent, and receives nothing |
| MqNotify.NeverRefused | packages/sys_call_demo/posix_mq_demo/posix_mq_demo.c:212-225 | exactly one of registered, pending, and between waking and registering; mq_notify is never refused; messages are received once each in order and the queue never exceeds MAX_MSG |
| MqNotify.BlocksExactly | packages/sys_call_demo/posix_mq_demo/posix_mq_demo.c:98-132 | a send is refused exactly when five messages are waiting; nothing but sigsuspend blocks the receiver, exactly while it is registered |
| MqNotify.QuietRunDrains | packages/sys_call_demo/posix_mq_demo/posix_mq_demo.c:219-229 | when sends stop the receiver makes at most length plus 4 steps and rests registered, with everything received |
| MqNotify.StepKeepsInv | packages/sys_call_demo/posix_mq_demo/posix_mq_demo.c:219-229 | every send and every call of the receiver keeps the one-of-three invariant and only extends both histories |
| MqNotify.StepKeepsAlert | packages/sys_call_demo/posix_mq_demo/posix_mq_demo.c:219-229 | every send and every call keeps the absence of lost wake-ups |
| MqNotify.QuietStepLowers | packages/sys_call_demo/posix_mq_demo/posix_mq_demo.c:219-229 | each call lowers a measure of queue length and phase |
| MqNotify.OfferedAccepts | packages/sys_call_demo/posix_mq_demo/posix_mq_demo.c:98-132 | of a batch of sends the queue takes in order as many as it has room for, refuses the others, and the receiver is where it was |
| MqPrograms.NotifiedQueue.constructor | packages/sys_call_demo/posix_mq_demo/posix_mq_demo.c:189-212 | a receiver before its first registration, on any queue |
| MqPrograms.NotifiedQueue.Send | packages/sys_call_demo/posix_mq_demo/posix_mq_demo.c:98-132 | the message is appended, and uses up a registration on an empty queue; a full queue refuses it |
| MqPrograms.NotifiedQueue.Notify | packages/sys_call_demo/posix_mq_demo/posix_mq_demo.c:212-225 | registration always succeeds |
| MqPrograms.NotifiedQueue.SigSuspend | packages/sys_call_demo/posix_mq_demo/posix_mq_demo.c:220 | returns exactly when the signal is pending, and consumes it |
| MqPrograms.NotifiedQueue.Receive | packages/sys_call_demo/posix_mq_demo/posix_mq_demo.c:226-228 | takes the oldest message, or fails on an empty queue |
| MqPrograms.NotifiedQueue.DrainAgain | packages/sys_call_demo/posix_mq_demo/posix_mq_demo.c:222-228 | after a wake-up: registration first, then receiving until the queue is empty, with arrivals before each call |
| MqPrograms.NotifiedQueue.SigNotify | packages/sys_call_demo/posix_mq_demo/posix_mq_demo.c:180-229 | the two nested loops under any schedule of batches of sends, one before each call including the first: the final state is the one that every batch and every call lead to; at rest everything accepted has been received in order if nothing was queued before the first registration, and otherwise the receiver is deaf |
| Mailbox.MailboxIsSafe | packages/sys_call_demo/posix_shm_demo/posix_shm_demo.c:77-125 | for any number of clients and any interleaving: one token, at most one process between its wait and its post or gone in between; prints are the messages in the order the token was taken, at most one behind, and each client keeps its own order |
| Mailbox.StuckExactly | packages/sys_call_demo/posix_shm_demo/posix_shm_demo.c:110-125 | the mailbox stops exactly when some client has left at end of input with the token |
| Mailbox.ClientBlocksExactly | packages/sys_call_demo/posix_shm_demo/posix_shm_demo.c:111-114 | a client waits for the token exactly until all that was ever taken has been printed and the server has passed it on |
| Mailbox.ServerBlocksExactly | packages/sys_call_demo/posix_shm_demo/posix_shm_demo.c:78-80 | the server waits exactly until a message has been put in and its client has posted |
| MailboxBuffer.BufferRemembers | packages/sys_call_demo/posix_shm_demo/posix_shm_demo.c:82-119 | each byte of the buffer is the one that the last word long enough left there; the last byte is zero once the server has printed |
| Mailbox.CompleteRunPrints | packages/sys_call_demo/posix_shm_demo/posix_shm_demo.c:110-125 | a run that cannot go on was ended by one client, whose whole input is printed; the others wait with a prefix of theirs printed; all messages put in are printed in order |
| Mailbox.AllPrintedExactly | packages/sys_call_demo/posix_shm_demo/posix_shm_demo.c:110-125 | every run prints every client's whole input before it stops if and only if no client with words has another client beside it |
| Mailbox.LeaverSilencesOthers | packages/sys_call_demo/posix_shm_demo/posix_shm_demo.c:110-125 | whichever client, and however many words it has: a run in which it prints them all, meets the end of its input, and stops the mailbox before anybody else has put in a word |
| Mailbox.RunTerminates | packages/sys_call_demo/posix_shm_demo/posix_shm_demo.c:77-125 | every run ends within six steps per word of input and two per client |
| Mailbox.SoleHolder | packages/sys_call_demo/posix_shm_demo/posix_shm_demo.c:111-121 | a client that holds the token is the only process that does |
| Mailbox.PrintsStored | packages/sys_call_demo/posix_shm_demo/posix_shm_demo.c:82-83 | the server prints exactly the word that was stored, whatever older bytes lie behind it |
| Mailbox.InvMeansExclusive | packages/sys_call_demo/posix_shm_demo/posix_shm_demo.c:67-89 | exclusion from the token count |
| Mailbox.InvMeansPrintsInOrder | packages/sys_call_demo/posix_shm_demo/posix_shm_demo.c:77-89 | the one-slot FIFO, with the order of acquisition and each client's own order |
| Mailbox.StepKeepsInv | packages/sys_call_demo/posix_shm_demo/posix_shm_demo.c:77-125 | every step of any process keeps token count, one-slot FIFO, order of acquisition and own order |
| Mailbox.ScanKeepsInv | packages/sys_call_demo/posix_shm_demo/posix_shm_demo.c:116 | storing a word moves it from its client's input into the slot |
| Mailbox.NobodyLeftUnread | packages/sys_call_demo/posix_shm_demo/posix_shm_demo.c:116-119 | a client leaves only at the end of its input |
| MailboxPrograms.SharedMailbox.constructor | packages/sys_call_demo/posix_shm_demo/posix_shm_demo.c:67-75 | the semaphores start at 0 and 1 |
| MailboxPrograms.SharedMailbox.ClientWaits | packages/sys_call_demo/posix_shm_demo/posix_shm_demo.c:111-114 | takes the token from `write`, or blocks |
| MailboxPrograms.SharedMailbox.ClientScans | packages/sys_call_demo/posix_shm_demo/posix_shm_demo.c:116-119 | the word and its zero overwrite the array in place; at end of input the client leaves with the token |
| MailboxPrograms.SharedMailbox.ClientPosts | packages/sys_call_demo/posix_shm_demo/posix_shm_demo.c:121-124 | passes the token to `read` |
| MailboxPrograms.SharedMailbox.ServerWaits | packages/sys_call_demo/posix_shm_demo/posix_shm_demo.c:78-80 | takes the token from `read`, or blocks |
| MailboxPrograms.SharedMailbox.ServerPrints | packages/sys_call_demo/posix_shm_demo/posix_shm_demo.c:82-83 | terminates the array in its last byte and prints it up to the first zero |
| MailboxPrograms.SharedMailbox.ServerPosts | packages/sys_call_demo/posix_shm_demo/posix_shm_demo.c:85-88 | passes the token to `write` |
| MailboxPrograms.SharedMailbox.RunToEnd | packages/sys_call_demo/posix_shm_demo/posix_shm_demo.c:67-125 | all programs under any schedule: the final state is the one that these attempts lead to, one client is gone and everything is printed that was put in; every client's whole input is printed if those with words have no other beside them |
| SeqServer.NumbersAreUnique | packages/sys_call_demo/pipe_demo/pipe_server.c:42-64 | for any number of clients and any interleaving: no end of file on the request FIFO, no reply FIFO missing, the granted ranges tile the numbers from 0 to the total, and the ranges of any two answered clients are disjoint |
| SeqServer.CompleteRunAnswersAll | packages/sys_call_demo/pipe_demo/pipe_client.c:20-52 | a run that cannot go on has answered every client once, with one grant each and disjoint ranges; with length 1 the numbers lie below the number of clients |
| SeqServer.StuckMeansAllGone | packages/sys_call_demo/pipe_demo/pipe_server.c:27-61 | the openings of reply and request FIFOs never leave server and clients all blocked while a client is not done |
| SeqServer.RunTerminates | packages/sys_call_demo/pipe_demo/pipe_server.c:27-64 | every run ends within fourteen steps per client and three more |
| SeqServer.FaultyRunTerminates | packages/sys_call_demo/pipe_demo/pipe_server.c:49-64 | the same bound holds with deaths and failing replies: neither holds up the server by itself |
| SeqOrder.AnsweredInTurn | packages/sys_call_demo/pipe_demo/pipe_server.c:43-63 | deaths included, requests are taken in the order in which they were written; of two clients that have read their numbers the one that wrote first has the lower range, and with length 1 the k-th writer reads number k |
| SeqOrder.SoundMeansInTurn | packages/sys_call_demo/pipe_demo/pipe_server.c:54-63 | the order of writing decides the numbers |
| SeqOrder.ServerBlocksExactly | packages/sys_call_demo/pipe_demo/pipe_server.c:27-49 | the server waits exactly until a client opens its FIFO, until a request is there, the next in turn, and until the client it serves opens its own FIFO |
| SeqOrder.ClientBlocksExactly | packages/sys_call_demo/pipe_demo/pipe_client.c:33-49 | a client waits exactly until the server has opened its FIFO, while that is full, until its own request is taken and answered, and nowhere else |
| SeqServer.RangesAlwaysTile | packages/sys_call_demo/pipe_demo/pipe_server.c:54-63 | the ranges tile the numbers from 0 to the total whatever fails: clients that are killed at any point, reply FIFOs that are missing, replies that find no reader |
| SeqServer.SurvivorsShareNoNumber | packages/sys_call_demo/pipe_demo/pipe_server.c:42-63 | although clients may be killed at any point and replies fail, the request read never meets the end of its FIFO and the ranges of any two clients that have read their numbers are disjoint |
| SeqServer.FaultyKeepsSound | packages/sys_call_demo/pipe_demo/pipe_server.c:42-63 | every step, failing reply and death keeps: outstanding requests belong to awaiting or dead clients, the rendezvous, consecutive ranges with the lengths asked for, and in a client's FIFO only its own number |
| SeqServer.SurvivorsAreAnswered | packages/sys_call_demo/pipe_demo/pipe_server.c:49-63 | when a service with deaths cannot go on, every survivor has been answered, unless the server has entered the open of the FIFO of a client that died before opening it |
| SeqServer.WaitsForEver | packages/sys_call_demo/pipe_demo/pipe_server.c:49 | and then it waits for ever: no request is taken any more and nobody without an answer gets one |
| SeqServer.DeadClientStopsService | packages/sys_call_demo/pipe_demo/pipe_client.c:38-42 | from every start, whichever client dies between its request and the open of its FIFO, a run that leaves the server waiting and all others unanswered |
| SeqRanges.TiledMeansTiles | packages/sys_call_demo/pipe_demo/pipe_server.c:54-63 | starting each range where the last one ended hands out no number twice and leaves no gap |
| SeqRanges.RangesDisjoint | packages/sys_call_demo/pipe_demo/pipe_server.c:54-63 | of two grants the earlier range ends before the later one starts |
| SeqRanges.RangesTile | packages/sys_call_demo/pipe_demo/pipe_server.c:54-63 | exactly the numbers below the total are handed out |
| SeqRanges.UnitStart | packages/sys_call_demo/pipe_demo/pipe_client.c:31 | with requests of length 1 the k-th request gets number k |
| SeqServer.InvMeansNothingLost | packages/sys_call_demo/pipe_demo/pipe_client.c:20-38 | a request on its way implies that its reply FIFO exists |
| SeqServer.InvMeansNoEof | packages/sys_call_demo/pipe_demo/pipe_server.c:34-45 | the server's own write end keeps its read from meeting the end of the FIFO |
| SeqServer.NoEmptyReply | packages/sys_call_demo/pipe_demo/pipe_client.c:42-49 | a client never meets the end of its own FIFO before its answer |
| SeqServer.ServiceProgress | packages/sys_call_demo/pipe_demo/pipe_server.c:42-61 | the server can move, or the client it serves can, or nothing is on its way |
| SeqServer.StepKeepsInv | packages/sys_call_demo/pipe_demo/pipe_server.c:42-64 | every step keeps: requests and awaiting clients match one to one, the rendezvous, the ledger of grants and the answers |
| SeqPrograms.SequenceService.constructor | packages/sys_call_demo/pipe_demo/pipe_server.c:16-22 | the service before the server's first open |
| SeqPrograms.SequenceService.ServerOpens | packages/sys_call_demo/pipe_demo/pipe_server.c:27-37 | the open for reading waits for a first client; the open for writing does not wait |
| SeqPrograms.SequenceService.ServerReads | packages/sys_call_demo/pipe_demo/pipe_server.c:43-46 | takes the oldest request, and blocks exactly when there is none |
| SeqPrograms.SequenceService.ServerOpensReply | packages/sys_call_demo/pipe_demo/pipe_server.c:48-52 | the reply FIFO named after the pid exists |
| SeqPrograms.SequenceService.ServerMeetsClient | packages/sys_call_demo/pipe_demo/pipe_server.c:49 | the open returns when the client has entered its own |
| SeqPrograms.SequenceService.ServerReplies | packages/sys_call_demo/pipe_demo/pipe_server.c:54-63 | writes the current number, closes, and adds the length |
| SeqPrograms.SequenceService.ClientWritesRequest | packages/sys_call_demo/pipe_demo/pipe_client.c:30-40 | writes pid and length, blocking while the FIFO is full |
| SeqPrograms.SequenceService.ClientStatement | packages/sys_call_demo/pipe_demo/pipe_client.c:20-52 | making, opening, reading and removing the FIFOs |
| SeqPrograms.SequenceService.RunToEnd | packages/sys_call_demo/pipe_demo/pipe_server.c:27-64 | all programs under any schedule: the final state is the one that these attempts lead to, and every client is answered |
| PipeBarrier.BarrierHolds | packages/sys_call_demo/pipe_demo/pipe_demo.c:65-97 | for any number of children, in every interleaving: open ends are conserved, the parent goes on only after every child has been forked and has closed its write end, and its read returns exactly then |
| PipeBarrier.BarrierOpens | packages/sys_call_demo/pipe_demo/pipe_demo.c:65-97 | every run ends within four steps per child and three more, with the parent past the barrier unless a fork failed |
| PipeBarrier.BlocksExactly | packages/sys_call_demo/pipe_demo/pipe_demo.c:65-95 | nothing blocks but the parent's read, exactly until every child has closed its write end; a fork may fail at any child |
| PipeBarrier.StepKeepsInv | packages/sys_call_demo/pipe_demo/pipe_demo.c:65-90 | fork, close and exit conserve the kernel's counts of open ends |
| PipeBarrier.ChildHoldsEnds | packages/sys_call_demo/pipe_demo/pipe_demo.c:72-78 | the end a child is about to close is open |
| BarrierPrograms.Barrier.constructor | packages/sys_call_demo/pipe_demo/pipe_demo.c:60 | the pipe starts with one read end and one write end |
| BarrierPrograms.Barrier.ForkAll | packages/sys_call_demo/pipe_demo/pipe_demo.c:65-85 | the fork loop makes every missing child and keeps the others |
| BarrierPrograms.Barrier.ForkOne | packages/sys_call_demo/pipe_demo/pipe_demo.c:66-71 | one fork duplicates both ends |
| BarrierPrograms.Barrier.ParentGoesOn | packages/sys_call_demo/pipe_demo/pipe_demo.c:87-95 | closes the parent's write end; reads, blocking until no write end is open |
| BarrierPrograms.Barrier.ChildGoesOn | packages/sys_call_demo/pipe_demo/pipe_demo.c:72-79 | closes the read end, works, closes the write end |
| BarrierPrograms.Barrier.Sync | packages/sys_call_demo/pipe_demo/pipe_demo.c:60-97 | parent and children under any schedule: the final state is the one that these attempts lead to, with the parent past the barrier and every child exited |

## Left out

- Failing kernel calls after which the programs print a message and go on or exit, except those named in the table: the other calls are taken to succeed, among them the child's send of FAILURE or END, without which its client would wait for ever.
- ShmTransfer.TransferIsSafe: the writer's read is taken not to return -1 (`sysv_shm_writer.c:96-99`) and the reader's write to be complete.
- FileServer.StepKeepsInv: msgrcv interrupted by the end of a child returns to the same msgrcv and is not a step of its own; a failing fork, which ends the server, is left out.
- SeqServer.NumbersAreUnique: calls of clients succeed, clients do not die and lengths are not negative; `SurvivorsShareNoNumber` and `SurvivorsAreAnswered` are about clients that may die.
- Mailbox.MailboxIsSafe: words are shorter than the buffer, as scanf's unbounded conversion needs, and clients start after the server has initialised the semaphores.
- FileServer.CompleteRunServesAll: files other than the output file do not change while they are sent, and path names hold no zero byte, on which the length test and the text of FAILURE rely.
- MqNotify.NeverRefused: one receiver, no other process that registers, and no SIGUSR1 from elsewhere.
- Integer widths: byte, message, transfer and sequence counters are unbounded, so the statements about them hold of the C `int` and `ssize_t` variables up to their overflow.
- Queue limits of the kernel other than bytes (System V) and messages (POSIX).
- Signal handlers, atexit wiring other than the removals in the table, and printed texts other than those of the mailbox.
- The thread notification (`posix_mq_demo.c:234-281`): it reads with a buffer shorter than the queue's message size.
- The one-shot pipe demo, the redirection demo and the older versions of the message client and server.
- The repository's other demos (sockets, pseudo-terminals, memory mapping, file locks, drivers, colour printing): thin wrappers over calls or constant tables.
