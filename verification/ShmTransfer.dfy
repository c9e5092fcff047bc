/** System V shared-memory transfer: one writer copies its standard input, chunk by chunk, through a
    one-buffer segment to one reader. Two semaphores guard the buffer; both are "busy" flags, a process
    waits for zero (which changes nothing) and every decrement and increment is a semop of its own.

    A state holds both program counters, the kernel objects and the two streams. The programs' order of
    semops is kept: each side first releases the other and only then marks itself busy. */
module ShmTransfer {
  import opened Streams
  import opened Runs

  const BUF_SIZE: nat := 1024

  /** The statement the writer executes next, in the order of `sysv_shm_writer.c`. */
  datatype WriterPc =
    | CreateSem | SetAll | CreateShm | AttachReadWrite
    | AwaitWritable | FillBuffer | ReleaseRead | MarkWriteBusy | TestEof | CountChunk
    | AwaitLastRead | RemoveSem | DetachWriter | RemoveShm | WriterExited

  /** The statement the reader executes next. `LookupFailed` is a reader that exited because an object
      did not exist yet; it may be started again. */
  datatype ReaderPc =
    | LookupSem | LookupShm | AttachReadOnly | LookupFailed
    | AwaitReadable | TestCount | AddBytes | WriteOut | ReleaseWrite | MarkReadBusy | CountTransfer
    | DetachReader | LastRelease | ReaderExited

  /** `input` is the writer's whole standard input and never changes; `chunks` are the nonempty results of
      its read calls so far and `writes` the arguments of the reader's write calls so far. */
  datatype State = State(
    input: seq<byte>,
    writer: WriterPc, reader: ReaderPc, writerAttached: bool, readerAttached: bool,
    semExists: bool, initialised: bool, writeSem: nat, readSem: nat,
    shmExists: bool, cnt: nat, buf: seq<byte>,
    unread: seq<byte>, chunks: seq<seq<byte>>, writes: seq<seq<byte>>,
    writerXfrs: nat, writerBytes: nat, readerXfrs: nat, readerBytes: nat)

  /** One atomic step. `n` is what the writer's read call returns; it matters in `FillBuffer` only. */
  datatype Event = WriterStep(n: nat) | ReaderStep | ReaderRestart

  predicate WriterEnabled(s: State, n: nat) {
    match s.writer
    case AwaitWritable => s.semExists && s.writeSem == 0
    case FillBuffer => s.writerAttached && MayRead(s.unread, BUF_SIZE, n) && n <= |s.buf|
    case ReleaseRead => s.semExists && s.readSem > 0
    case MarkWriteBusy => s.semExists
    case TestEof => s.writerAttached
    case CountChunk => s.writerAttached
    case AwaitLastRead => s.semExists && s.writeSem == 0
    case WriterExited => false
    case _ => true
  }

  predicate ReaderEnabled(s: State) {
    match s.reader
    case LookupFailed => false
    case AwaitReadable => s.semExists && s.readSem == 0
    case TestCount => s.readerAttached
    case AddBytes => s.readerAttached
    case WriteOut => s.readerAttached && s.cnt <= |s.buf|
    case ReleaseWrite => s.semExists && s.writeSem > 0
    case MarkReadBusy => s.semExists
    case LastRelease => s.semExists && s.writeSem > 0
    case ReaderExited => false
    case _ => true
  }

  predicate Enabled(s: State, e: Event) {
    match e
    case WriterStep(n) => WriterEnabled(s, n)
    case ReaderStep => ReaderEnabled(s)
    case ReaderRestart => s.reader == LookupFailed
  }

  function WriterApply(s: State, n: nat): State
    requires WriterEnabled(s, n)
  {
    match s.writer
    case CreateSem => s.(semExists := true, writer := SetAll)
    case SetAll => s.(writeSem := 0, readSem := 1, initialised := true, writer := CreateShm)
    case CreateShm =>
      if s.shmExists then s.(writer := AttachReadWrite)
      else s.(shmExists := true, cnt := 0, buf := seq(BUF_SIZE, _ => 0), writer := AttachReadWrite)
    case AttachReadWrite => s.(writerAttached := true, writerXfrs := 0, writerBytes := 0, writer := AwaitWritable)
    case AwaitWritable => s.(writer := FillBuffer)
    case FillBuffer =>
      s.(cnt := n, buf := s.unread[..n] + s.buf[n..], unread := s.unread[n..],
         chunks := if n == 0 then s.chunks else s.chunks + [s.unread[..n]],
         writer := ReleaseRead)
    case ReleaseRead => s.(readSem := s.readSem - 1, writer := MarkWriteBusy)
    case MarkWriteBusy => s.(writeSem := s.writeSem + 1, writer := TestEof)
    case TestEof => s.(writer := if s.cnt == 0 then AwaitLastRead else CountChunk)
    case CountChunk =>
      s.(writerXfrs := s.writerXfrs + 1, writerBytes := s.writerBytes + s.cnt, writer := AwaitWritable)
    case AwaitLastRead => s.(writer := RemoveSem)
    case RemoveSem => s.(semExists := false, writer := DetachWriter)
    case DetachWriter => s.(writerAttached := false, writer := RemoveShm)
    case RemoveShm => s.(shmExists := false, writer := WriterExited)
  }

  function ReaderApply(s: State): State
    requires ReaderEnabled(s)
  {
    match s.reader
    case LookupSem => s.(reader := if s.semExists then LookupShm else LookupFailed)
    case LookupShm => s.(reader := if s.shmExists then AttachReadOnly else LookupFailed)
    case AttachReadOnly =>
      if s.shmExists then s.(readerAttached := true, readerXfrs := 0, readerBytes := 0, reader := AwaitReadable)
      else s.(reader := LookupFailed)
    case AwaitReadable => s.(reader := TestCount)
    case TestCount => s.(reader := if s.cnt == 0 then DetachReader else AddBytes)
    case AddBytes => s.(readerBytes := s.readerBytes + s.cnt, reader := WriteOut)
    case WriteOut => s.(writes := s.writes + [s.buf[..s.cnt]], reader := ReleaseWrite)
    case ReleaseWrite => s.(writeSem := s.writeSem - 1, reader := MarkReadBusy)
    case MarkReadBusy => s.(readSem := s.readSem + 1, reader := CountTransfer)
    case CountTransfer => s.(readerXfrs := s.readerXfrs + 1, reader := AwaitReadable)
    case DetachReader => s.(readerAttached := false, reader := LastRelease)
    case LastRelease => s.(writeSem := s.writeSem - 1, reader := ReaderExited)
  }

  function Apply(s: State, e: Event): State
    requires Enabled(s, e)
  {
    match e
    case WriterStep(n) => WriterApply(s, n)
    case ReaderStep => ReaderApply(s)
    case ReaderRestart => s.(reader := LookupSem)
  }

  ghost predicate Next(s: State, t: State) {
    exists e :: Enabled(s, e) && t == Apply(s, e)
  }

  /** Both programs about to start. Nothing is said of kernel objects left behind by earlier runs. */
  predicate Starting(s: State) {
    && s.writer == CreateSem && s.reader == LookupSem
    && !s.initialised && !s.writerAttached && !s.readerAttached
    && s.unread == s.input && s.chunks == [] && s.writes == []
  }

  /** The start this protocol is made for: the segment does not exist yet. A stale semaphore set may. */
  predicate Fresh(s: State) {
    Starting(s) && !s.shmExists
  }

  // ---------------------------------------------------------------------------------------------
  // The invariant

  /** The reader has not entered its loop: it is looking the objects up, or gave up. */
  predicate Outside(r: ReaderPc) {
    r in {LookupSem, LookupShm, AttachReadOnly, LookupFailed}
  }

  predicate PastSetup(w: WriterPc) {
    w !in {CreateSem, SetAll, CreateShm}
  }

  predicate PastTransfer(w: WriterPc) {
    w in {RemoveSem, DetachWriter, RemoveShm, WriterExited}
  }

  /** The buffer has been handed to the reader and not yet given back. */
  predicate Released(s: State) {
    s.readSem == 0 && s.reader != MarkReadBusy && s.reader != ReaderExited
  }

  /** The buffer holds a chunk that the reader has not written out. */
  predicate Holding(s: State) {
    && PastSetup(s.writer) && 0 < s.cnt <= |s.buf|
    && (s.writer == ReleaseRead
        || (Released(s) && s.reader !in {ReleaseWrite, DetachReader, LastRelease}))
  }

  function InFlight(s: State): seq<byte> {
    if Holding(s) then s.buf[..s.cnt] else []
  }

  predicate AttachmentsOk(s: State) {
    && (s.writerAttached <==> PastSetup(s.writer) && s.writer !in {AttachReadWrite, RemoveShm, WriterExited})
    && (s.readerAttached <==> !Outside(s.reader) && s.reader !in {LastRelease, ReaderExited})
  }

  predicate SetupOk(s: State) {
    && (!PastSetup(s.writer) ==>
          && !s.shmExists && s.reader in {LookupSem, LookupShm, LookupFailed}
          && (s.initialised <==> s.writer == CreateShm)
          && s.unread == s.input && s.chunks == [])
    && (s.writer == AttachReadWrite ==> s.chunks == [])
    && (Outside(s.reader) ==> s.writes == [])
    && (s.writer == SetAll ==> s.semExists)
    && (s.writer == CreateShm ==> s.semExists && s.writeSem == 0 && s.readSem == 1)
    && (PastSetup(s.writer) ==>
          && s.initialised
          && (s.writer !in {DetachWriter, RemoveShm, WriterExited} ==> s.semExists)
          && (s.writer != WriterExited ==> s.shmExists)
          && |s.buf| == BUF_SIZE && s.cnt <= BUF_SIZE)
  }

  /** Which pairs of program counters and semaphore values can be met together. */
  predicate Handshake(s: State)
  {
    PastSetup(s.writer) ==>
      if s.reader == ReaderExited then
        (s.writer in {TestEof, AwaitLastRead} || PastTransfer(s.writer)) && s.writeSem == 0 && s.readSem == 0
      else if Released(s) then
        && s.writer in {MarkWriteBusy, TestEof, CountChunk, AwaitWritable, AwaitLastRead}
        && s.writeSem == (if s.writer == MarkWriteBusy then 0 else 1)
      else
        && s.writer in {AttachReadWrite, AwaitWritable, FillBuffer, ReleaseRead, TestEof, CountChunk}
        && s.writeSem == 0
        && s.readSem == (if s.reader == MarkReadBusy then 0 else 1)
        && (Outside(s.reader) || s.reader in {AwaitReadable, MarkReadBusy, CountTransfer})
        && (s.writer in {TestEof, CountChunk} ==> s.cnt > 0)
  }

  /** The writer's last read call is the one that set `cnt`. */
  predicate HasRead(w: WriterPc) {
    PastSetup(w) && w !in {AttachReadWrite, AwaitWritable, FillBuffer}
  }

  /** What `cnt` says while somebody may still look at it. */
  predicate CountOk(s: State) {
    && (s.reader in {AddBytes, WriteOut, ReleaseWrite} ==> s.cnt > 0)
    && (s.reader in {DetachReader, LastRelease, ReaderExited} ==> s.cnt == 0)
    && (s.writer == CountChunk ==> s.cnt > 0)
    && (s.writer == AwaitWritable && Released(s) ==> s.cnt > 0)
    && (s.writer == AwaitLastRead || PastTransfer(s.writer) ==> s.cnt == 0)
    && (s.cnt == 0 && HasRead(s.writer) ==> s.unread == [])
  }

  predicate StreamsOk(s: State) {
    && Flatten(s.chunks) + s.unread == s.input
    && s.chunks == s.writes + (if Holding(s) then [s.buf[..s.cnt]] else [])
    && (forall i :: 0 <= i < |s.chunks| ==> 1 <= |s.chunks[i]| <= BUF_SIZE)
  }

  /** The writer has filled the buffer with a chunk it has not counted yet. */
  predicate WriterBehind(s: State) {
    s.writer in {ReleaseRead, MarkWriteBusy, TestEof, CountChunk} && s.cnt > 0
  }

  /** The reader has written out a chunk it has not counted yet. */
  predicate ReaderBehind(s: State) {
    s.reader in {ReleaseWrite, MarkReadBusy, CountTransfer}
  }

  predicate WriterCountersOk(s: State) {
    PastSetup(s.writer) && s.writer != AttachReadWrite ==>
      && s.writerXfrs + (if WriterBehind(s) then 1 else 0) == |s.chunks|
      && s.writerBytes + (if WriterBehind(s) then s.cnt else 0) == |Flatten(s.chunks)|
  }

  predicate ReaderCountersOk(s: State) {
    !Outside(s.reader) ==>
      && s.readerXfrs + (if ReaderBehind(s) then 1 else 0) == |s.writes|
      && s.readerBytes == |Flatten(s.writes)| + (if s.reader == WriteOut then s.cnt else 0)
  }

  predicate ControlOk(s: State) {
    AttachmentsOk(s) && SetupOk(s) && Handshake(s) && CountOk(s)
  }

  predicate Inv(s: State) {
    ControlOk(s) && StreamsOk(s) && WriterCountersOk(s) && ReaderCountersOk(s)
  }

  lemma FreshInv(s: State)
    requires Fresh(s)
    ensures Inv(s)
  {
  }

  lemma WriterKeepsControl(s: State, n: nat)
    requires ControlOk(s) && WriterEnabled(s, n)
    ensures ControlOk(WriterApply(s, n))
  {
    hide ControlOk, WriterApply, WriterEnabled;
    if !PastSetup(s.writer) || s.writer == AttachReadWrite {
      SetUpKeepsControl(s, n);
    } else if s.writer in {AwaitWritable, FillBuffer, ReleaseRead, MarkWriteBusy, TestEof, CountChunk} {
      LoopKeepsControl(s, n);
    } else {
      TearDownKeepsControl(s, n);
    }
  }

  lemma SetUpKeepsControl(s: State, n: nat)
    requires ControlOk(s) && WriterEnabled(s, n) && (!PastSetup(s.writer) || s.writer == AttachReadWrite)
    ensures ControlOk(WriterApply(s, n))
  {
  }

  lemma LoopKeepsControl(s: State, n: nat)
    requires ControlOk(s) && WriterEnabled(s, n)
    requires s.writer in {AwaitWritable, FillBuffer, ReleaseRead, MarkWriteBusy, TestEof, CountChunk}
    ensures ControlOk(WriterApply(s, n))
  {
  }

  lemma TearDownKeepsControl(s: State, n: nat)
    requires ControlOk(s) && WriterEnabled(s, n) && (s.writer == AwaitLastRead || PastTransfer(s.writer))
    ensures ControlOk(WriterApply(s, n))
  {
  }

  lemma ReaderKeepsControl(s: State)
    requires ControlOk(s) && ReaderEnabled(s)
    ensures ControlOk(ReaderApply(s))
  {
    hide ControlOk, ReaderApply, ReaderEnabled;
    if Outside(s.reader) {
      ReaderSetUpKeepsControl(s);
    } else {
      ReaderLoopKeepsControl(s);
    }
  }

  lemma ReaderSetUpKeepsControl(s: State)
    requires ControlOk(s) && ReaderEnabled(s) && Outside(s.reader)
    ensures ControlOk(ReaderApply(s))
  {
  }

  lemma ReaderLoopKeepsControl(s: State)
    requires ControlOk(s) && ReaderEnabled(s) && !Outside(s.reader)
    ensures ControlOk(ReaderApply(s))
  {
  }

  lemma FillAppends(chunks: seq<seq<byte>>, unread: seq<byte>, n: nat)
    requires n <= |unread|
    ensures
      var after := if n == 0 then chunks else chunks + [unread[..n]];
      && Flatten(after) == Flatten(chunks) + unread[..n]
      && Flatten(after) + unread[n..] == Flatten(chunks) + unread
  {
    FlattenAppend(chunks, [unread[..n]]);
    FlattenOne(unread[..n]);
    assert unread == unread[..n] + unread[n..];
  }

  /** The writer fills a buffer that holds nothing, and what it holds afterwards is what was read. */
  lemma FillHolds(s: State, n: nat)
    requires ControlOk(s) && s.writer == FillBuffer && WriterEnabled(s, n)
    ensures !Holding(s) && (Holding(WriterApply(s, n)) <==> n > 0)
    ensures WriterApply(s, n).cnt == n && WriterApply(s, n).buf[..n] == s.unread[..n]
  {
    hide AttachmentsOk, CountOk;
    assert (s.unread[..n] + s.buf[n..])[..n] == s.unread[..n];
  }

  lemma FillKeepsStreams(s: State, n: nat)
    requires ControlOk(s) && StreamsOk(s) && s.writer == FillBuffer && WriterEnabled(s, n)
    ensures StreamsOk(WriterApply(s, n))
    ensures Flatten(WriterApply(s, n).chunks) == Flatten(s.chunks) + s.unread[..n]
  {
    hide ControlOk, Holding, Flatten;
    FillHolds(s, n);
    FillAppends(s.chunks, s.unread, n);
  }

  lemma WriterKeepsHolding(s: State, n: nat)
    requires ControlOk(s) && s.writer != FillBuffer && PastSetup(s.writer) && WriterEnabled(s, n)
    ensures Holding(WriterApply(s, n)) == Holding(s)
  {
  }

  lemma WriterKeepsStreams(s: State, n: nat)
    requires ControlOk(s) && StreamsOk(s) && WriterEnabled(s, n)
    ensures StreamsOk(WriterApply(s, n))
  {
    if s.writer == FillBuffer {
      FillKeepsStreams(s, n);
    } else if PastSetup(s.writer) {
      WriterKeepsHolding(s, n);
    }
  }

  lemma WriterKeepsCounters(s: State, n: nat)
    requires Inv(s) && WriterEnabled(s, n)
    ensures WriterCountersOk(WriterApply(s, n)) && ReaderCountersOk(WriterApply(s, n))
  {
    if s.writer == FillBuffer {
      FillKeepsStreams(s, n);
    } else if PastSetup(s.writer) {
      CountWriterStep(s, n);
    }
  }

  lemma CountWriterStep(s: State, n: nat)
    requires SetupOk(s) && CountOk(s) && WriterCountersOk(s) && ReaderCountersOk(s)
    requires PastSetup(s.writer) && s.writer != FillBuffer && WriterEnabled(s, n)
    ensures WriterCountersOk(WriterApply(s, n)) && ReaderCountersOk(WriterApply(s, n))
  {
  }

  lemma WriteOutKeepsStreams(s: State)
    requires ControlOk(s) && StreamsOk(s) && s.reader == WriteOut && ReaderEnabled(s)
    ensures StreamsOk(ReaderApply(s))
    ensures Flatten(ReaderApply(s).writes) == Flatten(s.writes) + s.buf[..s.cnt]
  {
    FlattenAppend(s.writes, [s.buf[..s.cnt]]);
    FlattenOne(s.buf[..s.cnt]);
    assert Holding(s) && !Holding(ReaderApply(s));
  }

  lemma ReaderKeepsHolding(s: State)
    requires ControlOk(s) && s.reader != WriteOut && ReaderEnabled(s)
    ensures Holding(ReaderApply(s)) == Holding(s)
  {
  }

  lemma ReaderKeepsStreams(s: State)
    requires ControlOk(s) && StreamsOk(s) && ReaderEnabled(s)
    ensures StreamsOk(ReaderApply(s))
  {
    if s.reader == WriteOut {
      WriteOutKeepsStreams(s);
    } else {
      ReaderKeepsHolding(s);
    }
  }

  lemma ReaderKeepsCounters(s: State)
    requires Inv(s) && ReaderEnabled(s)
    ensures WriterCountersOk(ReaderApply(s)) && ReaderCountersOk(ReaderApply(s))
  {
    if s.reader == WriteOut {
      WriteOutKeepsStreams(s);
    } else {
      CountReaderStep(s);
    }
  }

  lemma CountReaderStep(s: State)
    requires SetupOk(s) && CountOk(s) && WriterCountersOk(s) && ReaderCountersOk(s)
    requires s.reader != WriteOut && ReaderEnabled(s)
    ensures WriterCountersOk(ReaderApply(s)) && ReaderCountersOk(ReaderApply(s))
  {
    assert Flatten([]) == [];
    hide Flatten, Released, Handshake, StreamsOk;
    if Outside(s.reader) {
      hide CountOk;
    } else {
      hide SetupOk;
    }
  }

  lemma WriterKeepsInv(s: State, n: nat)
    requires Inv(s) && WriterEnabled(s, n)
    ensures Inv(WriterApply(s, n)) && WriterApply(s, n).input == s.input
  {
    hide AttachmentsOk, SetupOk, Handshake, CountOk, StreamsOk, WriterCountersOk, ReaderCountersOk;
    WriterKeepsControl(s, n);
    WriterKeepsStreams(s, n);
    WriterKeepsCounters(s, n);
  }

  lemma ReaderKeepsInv(s: State)
    requires Inv(s) && ReaderEnabled(s)
    ensures Inv(ReaderApply(s)) && ReaderApply(s).input == s.input
  {
    hide AttachmentsOk, SetupOk, Handshake, CountOk, StreamsOk, WriterCountersOk, ReaderCountersOk;
    ReaderKeepsControl(s);
    ReaderKeepsStreams(s);
    ReaderKeepsCounters(s);
  }

  lemma RestartKeepsInv(s: State)
    requires Inv(s) && Enabled(s, ReaderRestart)
    ensures Inv(Apply(s, ReaderRestart))
  {
  }

  lemma StepKeepsInv(s: State, t: State)
    requires Inv(s) && Next(s, t)
    ensures Inv(t) && t.input == s.input
  {
    hide Inv, WriterApply, ReaderApply;
    var e :| Enabled(s, e) && t == Apply(s, e);
    match e
    case WriterStep(n) => WriterKeepsInv(s, n);
    case ReaderStep => ReaderKeepsInv(s);
    case ReaderRestart => RestartKeepsInv(s);
  }

  // ---------------------------------------------------------------------------------------------
  // Safety over every run

  /** Nothing is lost, duplicated or reordered: what was written out, what the buffer still holds and what is
      still unread make up the input, chunk by chunk. */
  predicate Conserved(s: State) {
    && Flatten(s.writes) + InFlight(s) + s.unread == s.input
    && s.chunks == s.writes + (if InFlight(s) == [] then [] else [InFlight(s)])
  }

  predicate WriterOwnsBuffer(s: State) {
    s.writer in {FillBuffer, ReleaseRead}
  }

  predicate ReaderOwnsBuffer(s: State) {
    s.reader in {TestCount, AddBytes, WriteOut, ReleaseWrite}
  }

  predicate Exclusive(s: State) {
    && !(WriterOwnsBuffer(s) && ReaderOwnsBuffer(s))
    && (s.initialised ==> s.writeSem <= 1 && s.readSem <= 1)
  }

  predicate StartUpSafe(s: State) {
    !Outside(s.reader) ==> s.initialised
  }

  /** From the first removal on, the reader has detached and made its last semop; when the segment goes, nobody is
      attached. */
  predicate TearDownSafe(s: State) {
    && (PastTransfer(s.writer) ==> s.reader == ReaderExited && !s.readerAttached)
    && (s.writer in {RemoveShm, WriterExited} ==> !s.writerAttached)
  }

  /** Transfers counted so far when each counter update is joined to the semop before it. */
  function WriterCount(s: State): nat {
    s.writerXfrs + if s.writer in {TestEof, CountChunk} && s.cnt > 0 then 1 else 0
  }

  function ReaderCount(s: State): nat {
    s.readerXfrs + if s.reader == CountTransfer then 1 else 0
  }

  /** The joined counts differ by 0 or 1; the variables themselves may differ by -1 up to 2. */
  predicate LeadOk(s: State) {
    PastSetup(s.writer) && s.writer != AttachReadWrite && !Outside(s.reader) ==>
      && 0 <= WriterCount(s) - ReaderCount(s) <= 1
      && -1 <= s.writerXfrs - s.readerXfrs <= 2
  }

  predicate Safe(s: State) {
    Conserved(s) && Exclusive(s) && StartUpSafe(s) && TearDownSafe(s) && LeadOk(s)
  }

  lemma InvMeansConserved(s: State)
    requires Inv(s)
    ensures Conserved(s)
  {
    if Holding(s) {
      FlattenAppend(s.writes, [InFlight(s)]);
      FlattenOne(InFlight(s));
    } else {
      assert s.chunks == s.writes;
    }
  }

  lemma InvMeansExclusive(s: State)
    requires ControlOk(s)
    ensures Exclusive(s) && StartUpSafe(s) && TearDownSafe(s)
  {
  }

  lemma InvMeansLeadOk(s: State)
    requires Inv(s)
    ensures LeadOk(s)
  {
    assert |s.chunks| == |s.writes| + if Holding(s) then 1 else 0;
  }

  lemma InvMeansSafe(s: State)
    requires Inv(s)
    ensures Safe(s)
  {
    hide ControlOk, Conserved, Exclusive, LeadOk;
    InvMeansConserved(s);
    InvMeansExclusive(s);
    InvMeansLeadOk(s);
  }

  lemma FreshRunKeepsInv(run: seq<State>)
    requires IsRun(Next, run) && Fresh(run[0])
    ensures forall i :: 0 <= i < |run| ==> Inv(run[i]) && run[i].input == run[0].input
  {
    hide Inv, Next;
    var input := run[0].input;
    var inv := (s: State) => Inv(s) && s.input == input;
    forall s, t | inv(s) && Next(s, t)
      ensures inv(t)
    {
      StepKeepsInv(s, t);
    }
    FreshInv(run[0]);
    InvariantHolds(Next, inv, run);
    assert forall i :: 0 <= i < |run| ==> inv(run[i]);
  }

  /** Main theorem: every state of every interleaving that starts without a segment is safe. */
  lemma TransferIsSafe(run: seq<State>)
    requires IsRun(Next, run) && Fresh(run[0])
    ensures forall i :: 0 <= i < |run| ==> Safe(run[i]) && run[i].input == run[0].input
  {
    FreshRunKeepsInv(run);
    forall i | 0 <= i < |run|
      ensures Safe(run[i])
    {
      InvMeansSafe(run[i]);
    }
  }

  // ---------------------------------------------------------------------------------------------
  // No deadlock, termination, and the final state

  ghost predicate Stuck(s: State) {
    forall e :: !Enabled(s, e)
  }

  predicate Finished(s: State) {
    s.writer == WriterExited && s.reader == ReaderExited
  }

  /** Every semop and every access to the segment finds its object, and the byte count in range. */
  predicate ObjectsPresent(s: State) {
    && (s.writer in {AwaitWritable, FillBuffer, ReleaseRead, MarkWriteBusy, AwaitLastRead} ==>
          s.semExists && s.shmExists && s.writerAttached && |s.buf| == BUF_SIZE)
    && (s.writer in {TestEof, CountChunk} ==> s.writerAttached)
    && (!Outside(s.reader) && s.reader != ReaderExited ==>
          s.semExists && s.shmExists && s.cnt <= |s.buf|)
    && (s.reader in {TestCount, AddBytes, WriteOut} ==> s.readerAttached)
  }

  lemma InvMeansObjectsPresent(s: State)
    requires Inv(s)
    ensures ObjectsPresent(s)
  {
  }

  /** No deadlock: unless both have exited, one of the two programs can go on. */
  lemma NotStuck(s: State)
    requires Inv(s) && !Finished(s)
    ensures !Stuck(s)
  {
    hide WriterEnabled, ReaderEnabled, ControlOk, StreamsOk, WriterCountersOk, ReaderCountersOk;
    if !WriterBlocks(s.writer) {
      WriterMayGo(s);
      assert Enabled(s, WriterStep(0));
    } else if s.reader == LookupFailed {
      assert Enabled(s, ReaderRestart);
    } else if !ReaderBlocks(s.reader) {
      ReaderMayGo(s);
      assert Enabled(s, ReaderStep);
    } else {
      var n := if s.unread == [] then 0 else 1;
      if Released(s) {
        ReaderGoesOn(s);
        assert Enabled(s, ReaderStep);
      } else {
        WriterGoesOn(s, n);
        assert Enabled(s, WriterStep(n));
      }
    }
  }

  predicate WriterBlocks(w: WriterPc) {
    w in {AwaitWritable, FillBuffer, ReleaseRead, AwaitLastRead, WriterExited}
  }

  predicate ReaderBlocks(r: ReaderPc) {
    r in {LookupFailed, AwaitReadable, ReleaseWrite, LastRelease, ReaderExited}
  }

  lemma WriterMayGo(s: State)
    requires Inv(s) && !WriterBlocks(s.writer)
    ensures WriterEnabled(s, 0)
  {
    hide Handshake, CountOk, StreamsOk, WriterCountersOk, ReaderCountersOk;
  }

  lemma FillMayGo(s: State, n: nat)
    requires Inv(s) && s.writer == FillBuffer && MayRead(s.unread, BUF_SIZE, n)
    ensures WriterEnabled(s, n) && n <= |s.buf|
  {
    hide Handshake, CountOk, StreamsOk, WriterCountersOk, ReaderCountersOk;
  }

  lemma ReaderMayGo(s: State)
    requires Inv(s) && !ReaderBlocks(s.reader)
    ensures ReaderEnabled(s)
  {
    hide StreamsOk, WriterCountersOk, ReaderCountersOk;
  }

  /** The reader has the buffer: if it waits, its semaphore lets it pass. */
  lemma ReaderGoesOn(s: State)
    requires ControlOk(s) && Released(s) && WriterBlocks(s.writer)
    requires ReaderBlocks(s.reader) && s.reader != LookupFailed
    ensures ReaderEnabled(s)
  {
    hide AttachmentsOk, CountOk;
  }

  /** The writer has the buffer: if it waits, its semaphore lets it pass. */
  lemma WriterGoesOn(s: State, n: nat)
    requires ControlOk(s) && !Released(s) && WriterBlocks(s.writer) && !Finished(s)
    requires ReaderBlocks(s.reader) && s.reader != LookupFailed
    requires MayRead(s.unread, BUF_SIZE, n)
    ensures WriterEnabled(s, n)
  {
    hide CountOk;
  }

  /** The writer waits exactly while a chunk that it has filled is not written out, or is but not yet given back;
      between its own semops it waits only while the reader has not yet marked its buffer busy, and before its
      removals exactly until the reader has made its last semop. Nothing else ever blocks it, whether a reader is
      there or not, and a read may return any number of bytes up to 1024. */
  lemma WriterBlocksExactly(s: State, n: nat)
    requires Inv(s) && s.writer != WriterExited
    requires s.writer == FillBuffer ==> n <= 1024 && n <= |s.unread| && (n == 0 <==> s.unread == [])
    ensures Enabled(s, WriterStep(n)) <==>
      match s.writer
      case AwaitWritable => |s.chunks| == |s.writes| && s.reader != ReleaseWrite
      case ReleaseRead => s.reader != MarkReadBusy
      case AwaitLastRead => s.reader == ReaderExited
      case _ => true
  {
    hide ControlOk, StreamsOk, WriterCountersOk, ReaderCountersOk;
    if !WriterBlocks(s.writer) {
      WriterMayGo(s);
      AnyCount(s, n);
      hide WriterEnabled;
    } else if s.writer == AwaitWritable {
      StreamsMeanLead(s);
      WritableExactly(s);
    } else if s.writer == FillBuffer {
      FillMayGo(s, n);
      hide WriterEnabled;
    } else {
      HandOverExactly(s);
    }
  }

  lemma HandOverExactly(s: State)
    requires ControlOk(s) && s.writer in {ReleaseRead, AwaitLastRead}
    ensures s.semExists
    ensures s.writer == ReleaseRead ==> (s.readSem > 0 <==> s.reader != MarkReadBusy)
    ensures s.writer == AwaitLastRead ==> (s.writeSem == 0 <==> s.reader == ReaderExited)
  {
    hide AttachmentsOk, CountOk;
  }

  lemma AnyCount(s: State, n: nat)
    requires s.writer != FillBuffer
    ensures WriterEnabled(s, n) <==> WriterEnabled(s, 0)
  {
  }

  predicate ChunksLead(s: State) {
    |s.chunks| == |s.writes| + if Holding(s) then 1 else 0
  }

  lemma StreamsMeanLead(s: State)
    requires StreamsOk(s)
    ensures ChunksLead(s)
  {
    hide Flatten, Holding;
  }

  lemma WritableExactly(s: State)
    requires ControlOk(s) && ChunksLead(s) && s.writer == AwaitWritable
    ensures s.semExists && (s.writeSem == 0 <==> |s.chunks| == |s.writes| && s.reader != ReleaseWrite)
  {
  }

  /** The writer has handed over what its last read returned: a chunk, or the end of the input. */
  predicate HandedOver(s: State) {
    HasRead(s.writer) && s.writer != ReleaseRead && s.cnt == 0
  }

  /** The reader waits exactly until a chunk that it has not written out, or the end of the input, is handed over; and
      between its own semops it waits only while the writer has not yet marked its buffer busy. */
  lemma ReaderBlocksExactly(s: State)
    requires Inv(s) && s.reader != LookupFailed && s.reader != ReaderExited
    ensures Enabled(s, ReaderStep) <==>
      match s.reader
      case AwaitReadable => HandedOver(s) || (|s.chunks| > |s.writes| && s.writer != ReleaseRead)
      case ReleaseWrite => s.writer != MarkWriteBusy
      case LastRelease => s.writer != MarkWriteBusy
      case _ => true
  {
    hide ControlOk, StreamsOk, WriterCountersOk, ReaderCountersOk, HandedOver;
    if !ReaderBlocks(s.reader) {
      ReaderMayGo(s);
      hide ReaderEnabled;
    } else if s.reader == AwaitReadable {
      StreamsMeanLead(s);
      ReadableExactly(s);
    } else {
      GiveBackExactly(s);
    }
  }

  lemma GiveBackExactly(s: State)
    requires ControlOk(s) && s.reader in {ReleaseWrite, LastRelease}
    ensures s.semExists && (s.writeSem > 0 <==> s.writer != MarkWriteBusy)
  {
    hide AttachmentsOk, CountOk;
  }

  lemma ReadableExactly(s: State)
    requires ControlOk(s) && ChunksLead(s) && s.reader == AwaitReadable
    ensures s.semExists
    ensures s.readSem == 0 <==> HandedOver(s) || (|s.chunks| > |s.writes| && s.writer != ReleaseRead)
  {
  }

  /** Complete runs deliver: whatever the schedule and the chunking, a run that cannot go on has written out the
      whole input, both programs have exited, both have counted the same and the objects are gone. */
  lemma CompleteRunDelivers(run: seq<State>)
    requires IsRun(Next, run) && Fresh(run[0]) && Stuck(run[|run| - 1])
    ensures
      var s := run[|run| - 1];
      && Finished(s) && Flatten(s.writes) == run[0].input && s.writes == s.chunks
      && s.writerBytes == s.readerBytes == |run[0].input|
      && s.writerXfrs == s.readerXfrs == |s.chunks|
      && !s.semExists && !s.shmExists
  {
    FreshRunKeepsInv(run);
    var s := run[|run| - 1];
    if !Finished(s) {
      NotStuck(s);
    }
    ObjectsRemoved(run);
    InvMeansConserved(s);
    assert InFlight(s) == [] && s.unread == [];
  }

  predicate RemovedInOrder(s: State) {
    && (s.writer in {DetachWriter, RemoveShm, WriterExited} ==> !s.semExists)
    && (s.writer == WriterExited ==> !s.shmExists)
  }

  lemma WriterRemovesInOrder(s: State, n: nat)
    requires RemovedInOrder(s) && WriterEnabled(s, n)
    ensures RemovedInOrder(WriterApply(s, n))
  {
    if !PastTransfer(s.writer) {
      NotYetRemoving(s, n);
    }
  }

  /** The set-up and the loop; they lead to the first removal at most. */
  predicate BeforeRemoval(w: WriterPc) {
    w in {CreateSem, SetAll, CreateShm, AttachReadWrite, AwaitWritable, FillBuffer, ReleaseRead, MarkWriteBusy, TestEof,
          CountChunk, AwaitLastRead, RemoveSem}
  }

  lemma NotYetRemoving(s: State, n: nat)
    requires WriterEnabled(s, n) && !PastTransfer(s.writer)
    ensures BeforeRemoval(WriterApply(s, n).writer)
  {
    hide WriterEnabled, WriterApply;
    if PastSetup(s.writer) {
      LoopRemovesNothing(s, n);
    } else {
      SetUpRemovesNothing(s, n);
    }
  }

  lemma SetUpRemovesNothing(s: State, n: nat)
    requires WriterEnabled(s, n) && !PastSetup(s.writer)
    ensures BeforeRemoval(WriterApply(s, n).writer)
  {
  }

  lemma LoopRemovesNothing(s: State, n: nat)
    requires WriterEnabled(s, n) && PastSetup(s.writer) && !PastTransfer(s.writer)
    ensures BeforeRemoval(WriterApply(s, n).writer)
  {
  }

  /** Neither object is the reader's to create or remove, and it attaches the segment for reading only. */
  predicate SameObjects(s: State, t: State) {
    && t.semExists == s.semExists && t.shmExists == s.shmExists && t.writer == s.writer
    && t.buf == s.buf && t.chunks == s.chunks
  }

  lemma ReaderRemovesNothing(s: State)
    requires ReaderEnabled(s)
    ensures SameObjects(s, ReaderApply(s))
  {
    hide ReaderEnabled;
    match s.reader
    case LookupSem =>
    case LookupShm =>
    case AttachReadOnly =>
    case AwaitReadable =>
    case TestCount =>
    case AddBytes =>
    case WriteOut =>
    case ReleaseWrite =>
    case MarkReadBusy =>
    case CountTransfer =>
    case DetachReader =>
    case LastRelease =>
    case _ =>
  }

  lemma ObjectsRemoved(run: seq<State>)
    requires IsRun(Next, run) && Starting(run[0])
    ensures RemovedInOrder(run[|run| - 1])
  {
    forall s, t | RemovedInOrder(s) && Next(s, t)
      ensures RemovedInOrder(t)
    {
      hide WriterEnabled, ReaderEnabled, WriterApply, ReaderApply;
      var e :| Enabled(s, e) && t == Apply(s, e);
      match e
      case WriterStep(n) => WriterRemovesInOrder(s, n);
      case ReaderStep => ReaderRemovesNothing(s);
      case ReaderRestart =>
    }
    InvariantHolds(Next, RemovedInOrder, run);
  }

  /** Steps left to the writer, at most. */
  function WriterRank(s: State): nat {
    var u := 6 * |s.unread|;
    match s.writer
    case CreateSem => u + 13
    case SetAll => u + 12
    case CreateShm => u + 11
    case AttachReadWrite => u + 10
    case AwaitWritable => u + 9
    case FillBuffer => u + 8
    case ReleaseRead => if s.cnt > 0 then u + 13 else 7
    case MarkWriteBusy => if s.cnt > 0 then u + 12 else 6
    case TestEof => if s.cnt > 0 then u + 11 else 5
    case CountChunk => u + 10
    case AwaitLastRead => 4
    case RemoveSem => 3
    case DetachWriter => 2
    case RemoveShm => 1
    case WriterExited => 0
  }

  /** Steps left to the reader, at most, once it has entered its loop. */
  function ReaderRank(s: State): nat {
    var u := 7 * (|s.unread| + if Holding(s) then 1 else 0);
    match s.reader
    case AwaitReadable => u + 4
    case TestCount => u + 3
    case AddBytes => u + 2
    case WriteOut => u + 1
    case ReleaseWrite => u + 7
    case MarkReadBusy => u + 6
    case CountTransfer => u + 5
    case DetachReader => 2
    case LastRelease => 1
    case _ => 0
  }

  function Measure(s: State): nat {
    WriterRank(s) + ReaderRank(s)
  }

  predicate Attached(s: State) {
    Inv(s) && !Outside(s.reader)
  }

  lemma AttachedWriterStepLowers(s: State, n: nat)
    requires Attached(s) && WriterEnabled(s, n)
    ensures Measure(WriterApply(s, n)) < Measure(s) && !Outside(WriterApply(s, n).reader)
  {
    hide StreamsOk, WriterCountersOk, ReaderCountersOk;
    if s.writer != FillBuffer && PastSetup(s.writer) {
      WriterKeepsHolding(s, n);
    }
  }

  lemma AttachedReaderStepLowers(s: State)
    requires Attached(s) && ReaderEnabled(s)
    ensures Measure(ReaderApply(s)) < Measure(s) && !Outside(ReaderApply(s).reader)
  {
    hide StreamsOk, WriterCountersOk, ReaderCountersOk;
    assert WriterRank(ReaderApply(s)) == WriterRank(s);
    if s.reader != WriteOut {
      ReaderKeepsHolding(s);
    }
  }

  lemma AttachedStepLowers(s: State, t: State)
    requires Attached(s) && Next(s, t)
    ensures Attached(t) && Measure(t) < Measure(s)
  {
    hide Inv, Measure, WriterApply, ReaderApply;
    StepKeepsInv(s, t);
    var e :| Enabled(s, e) && t == Apply(s, e);
    match e
    case WriterStep(n) => AttachedWriterStepLowers(s, n);
    case ReaderStep => AttachedReaderStepLowers(s);
    case ReaderRestart => assert false;
  }

  /** Once the reader has entered its loop, at step `k`, every schedule ends within a number of steps that is linear
      in the input: no fairness is assumed. Together with `CompleteRunDelivers` this is total correctness. */
  lemma AttachedRunTerminates(run: seq<State>, k: nat)
    requires IsRun(Next, run) && Fresh(run[0]) && k < |run| && !Outside(run[k].reader)
    ensures |run| - 1 - k <= 13 * |run[0].input| + 27
  {
    hide Inv, Measure, Next;
    FreshRunKeepsInv(run);
    SuffixIsRun(Next, run, k);
    var rest := run[k..];
    forall s, t | Attached(s) && Next(s, t)
      ensures Attached(t) && Measure(t) < Measure(s)
    {
      AttachedStepLowers(s, t);
    }
    RunIsBounded(Next, Attached, Measure, rest);
    MeasureIsLinear(run[k]);
  }

  lemma MeasureIsLinear(s: State)
    requires Inv(s)
    ensures Measure(s) <= 13 * |s.input| + 27
  {
    hide Inv;
    InvMeansConserved(s);
    assert |s.unread| + |InFlight(s)| <= |s.input|;
    hide Flatten;
  }

  // ---------------------------------------------------------------------------------------------
  // When start-up is safe

  /** The reader enters its loop before SETALL in some run exactly when a segment is left over from before. */
  lemma StartUpSafeExactly(start: State)
    requires Starting(start)
    ensures (forall run :: IsRun(Next, run) && run[0] == start ==> StartUpSafe(run[|run| - 1]))
       <==> !start.shmExists
  {
    if start.shmExists {
      var run := StaleSegmentRun(start);
      assert IsRun(Next, run) && run[0] == start && !StartUpSafe(run[|run| - 1]);
    } else {
      forall run | IsRun(Next, run) && run[0] == start
        ensures StartUpSafe(run[|run| - 1])
      {
        TransferIsSafe(run);
      }
    }
  }

  /** With a stale segment: the writer creates the semaphore set, then the reader overtakes it. */
  lemma StaleSegmentRun(start: State) returns (run: seq<State>)
    requires Starting(start) && start.shmExists
    ensures IsRun(Next, run) && run[0] == start && !StartUpSafe(run[|run| - 1])
  {
    assert Enabled(start, WriterStep(0));
    var s1 := Apply(start, WriterStep(0));
    assert Enabled(s1, ReaderStep);
    var s2 := Apply(s1, ReaderStep);
    assert Enabled(s2, ReaderStep);
    var s3 := Apply(s2, ReaderStep);
    assert Enabled(s3, ReaderStep);
    var s4 := Apply(s3, ReaderStep);
    run := [start, s1, s2, s3, s4];
  }
}
