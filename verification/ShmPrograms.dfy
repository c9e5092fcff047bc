/** The programs of `sysv_shm_writer.c` and `sysv_shm_reader.c`: variables that are assigned step by step. Every call
    executes one statement of one program; a call that would block changes nothing and returns false. Every
    contract ties the new state to the transition relation of `ShmTransfer`, whose theorems then apply. */
module ShmPrograms {
  import opened Streams
  import opened Runs
  import opened ShmTransfer

  class SharedMemory {
    const input: seq<byte>
    var unread: seq<byte>
    ghost var chunks: seq<seq<byte>>
    var writes: seq<seq<byte>>

    var semExists: bool
    ghost var initialised: bool
    var writeSem: nat
    var readSem: nat
    var shmExists: bool
    var cnt: nat
    var buf: array<byte>

    var writer: WriterPc
    var writerAttached: bool
    var writerXfrs: nat
    var writerBytes: nat
    var reader: ReaderPc
    var readerAttached: bool
    var readerXfrs: nat
    var readerBytes: nat

    ghost function View(): State
      reads this, buf
    {
      State(input, writer, reader, writerAttached, readerAttached, semExists, initialised, writeSem, readSem,
            shmExists, cnt, buf[..], unread, chunks, writes, writerXfrs, writerBytes, readerXfrs, readerBytes)
    }

    ghost predicate Valid()
      reads this, buf
    {
      Inv(View())
    }

    /** No segment yet; the semaphore set may be a stale one with any values. */
    constructor (input: seq<byte>, semExists: bool, writeSem: nat, readSem: nat)
      ensures Valid() && Fresh(View()) && fresh(buf)
      ensures this.input == input && this.semExists == semExists
      ensures this.writeSem == writeSem && this.readSem == readSem
    {
      this.input, this.unread, this.chunks, this.writes := input, input, [], [];
      this.semExists, this.initialised, this.writeSem, this.readSem := semExists, false, writeSem, readSem;
      this.shmExists, this.cnt, this.buf := false, 0, new byte[0];
      this.writerAttached, this.readerAttached := false, false;
      this.writer, this.writerXfrs, this.writerBytes := CreateSem, 0, 0;
      this.reader, this.readerXfrs, this.readerBytes := LookupSem, 0, 0;
      new;
      FreshInv(View());
    }

    /** Start-up: create the semaphores, then initialise them. Never blocks. */
    method WriterSetUp()
      requires Valid() && writer in {CreateSem, SetAll}
      modifies this
      ensures old(Enabled(View(), WriterStep(0))) && View() == old(Apply(View(), WriterStep(0)))
      ensures Valid() && buf == old(buf)
    {
      hide Inv, WriterEnabled, ReaderEnabled, ReaderApply;
      WriterMayGo(View());
      ghost var before := View();
      match writer {
        case CreateSem =>
          semExists, writer := true, SetAll;
        case SetAll =>
          writeSem, readSem, initialised, writer := 0, 1, true, CreateShm;
      }
      WriterKeepsInv(before, 0);
    }

    /** Creates the segment unless it exists; a new one is filled with zeros. */
    method WriterCreateShm()
      requires Valid() && writer == CreateShm
      modifies this
      ensures View() == old(Apply(View(), WriterStep(0)))
      ensures Valid() && (buf == old(buf) || fresh(buf))
    {
      hide Inv, ReaderEnabled, ReaderApply, Outside;
      ghost var before := View();
      WriterKeepsInv(before, 0);
      if !shmExists {
        shmExists, cnt, buf := true, 0, new byte[BUF_SIZE](_ => 0);
      }
      writer := AttachReadWrite;
      assert buf[..] == Apply(before, WriterStep(0)).buf;
    }

    /** Attaches the segment for writing and enters the loop. */
    method WriterAttach()
      requires Valid() && writer == AttachReadWrite
      modifies this
      ensures old(Enabled(View(), WriterStep(0))) && View() == old(Apply(View(), WriterStep(0)))
      ensures Valid() && buf == old(buf)
    {
      hide Inv, WriterEnabled, ReaderEnabled, ReaderApply;
      WriterMayGo(View());
      WriterKeepsInv(View(), 0);
      writerAttached, writerXfrs, writerBytes, writer := true, 0, 0, AwaitWritable;
    }

    /** read() into the segment: overwrites the first bytes of the buffer. */
    method CopyIn(n: nat)
      requires n <= |unread| && n <= buf.Length
      modifies buf
      ensures buf[..] == unread[..n] + old(buf[n..])
    {
      forall i | 0 <= i < n {
        buf[i] := unread[i];
      }
    }

    /** Reads the next `n` bytes of standard input into the segment and sets `cnt`. */
    method WriterFill(n: nat)
      requires Valid() && writer == FillBuffer && MayRead(unread, BUF_SIZE, n)
      modifies this, buf
      ensures old(Enabled(View(), WriterStep(n))) && View() == old(Apply(View(), WriterStep(n)))
      ensures Valid() && buf == old(buf)
    {
      hide Inv, ReaderEnabled, ReaderApply, WriterEnabled;
      FillMayGo(View(), n);
      WriterKeepsInv(View(), n);
      CopyIn(n);
      cnt := n;
      chunks := if n == 0 then chunks else chunks + [unread[..n]];
      unread, writer := unread[n..], ReleaseRead;
    }

    /** The three semops of the writer's loop. */
    method WriterSemop() returns (moved: bool)
      requires Valid() && writer in {AwaitWritable, ReleaseRead, MarkWriteBusy}
      modifies this
      ensures moved <==> old(Enabled(View(), WriterStep(0)))
      ensures View() == if moved then old(Apply(View(), WriterStep(0))) else old(View())
      ensures Valid() && buf == old(buf)
    {
      hide Inv, ReaderEnabled, ReaderApply, Outside;
      ghost var before := View();
      InvMeansObjectsPresent(before);
      moved := true;
      match writer {
        case AwaitWritable =>
          if writeSem == 0 { writer := FillBuffer; } else { moved := false; }
        case ReleaseRead =>
          if readSem > 0 { readSem, writer := readSem - 1, MarkWriteBusy; } else { moved := false; }
        case MarkWriteBusy =>
          writeSem, writer := writeSem + 1, TestEof;
      }
      if moved {
        WriterKeepsInv(before, 0);
      }
    }

    /** The end of the writer's loop body: the test for end of file, or the counters. Never blocks. */
    method WriterCounts()
      requires Valid() && writer in {TestEof, CountChunk}
      modifies this
      ensures old(Enabled(View(), WriterStep(0))) && View() == old(Apply(View(), WriterStep(0)))
      ensures Valid() && buf == old(buf)
    {
      hide Inv, WriterEnabled, ReaderEnabled, ReaderApply;
      WriterMayGo(View());
      WriterKeepsInv(View(), 0);
      if writer == TestEof {
        writer := if cnt == 0 then AwaitLastRead else CountChunk;
      } else {
        writerXfrs, writerBytes, writer := writerXfrs + 1, writerBytes + cnt, AwaitWritable;
      }
    }

    /** Tear-down: wait for the reader's last release, then remove the semaphores. */
    method WriterAwaitsLast() returns (moved: bool)
      requires Valid() && writer in {AwaitLastRead, RemoveSem}
      modifies this
      ensures moved <==> old(Enabled(View(), WriterStep(0)))
      ensures View() == if moved then old(Apply(View(), WriterStep(0))) else old(View())
      ensures Valid() && buf == old(buf)
    {
      hide Inv, ReaderEnabled, ReaderApply, Outside;
      ghost var before := View();
      InvMeansObjectsPresent(before);
      moved := true;
      match writer {
        case AwaitLastRead =>
          if writeSem == 0 { writer := RemoveSem; } else { moved := false; }
        case RemoveSem =>
          semExists, writer := false, DetachWriter;
      }
      if moved {
        WriterKeepsInv(before, 0);
      }
    }

    /** Tear-down: detach the segment and remove it. Never blocks. */
    method WriterTearDown()
      requires Valid() && writer in {DetachWriter, RemoveShm}
      modifies this
      ensures old(Enabled(View(), WriterStep(0))) && View() == old(Apply(View(), WriterStep(0)))
      ensures Valid() && buf == old(buf)
    {
      hide Inv, WriterEnabled, ReaderEnabled, ReaderApply;
      WriterMayGo(View());
      WriterKeepsInv(View(), 0);
      if writer == DetachWriter {
        writerAttached, writer := false, RemoveShm;
      } else {
        shmExists, writer := false, WriterExited;
      }
    }

    /** Start-up of the reader: look both objects up, or give up if one does not exist. */
    method ReaderLooksUp()
      requires Valid() && reader in {LookupSem, LookupShm}
      modifies this
      ensures old(Enabled(View(), ReaderStep)) && View() == old(Apply(View(), ReaderStep))
      ensures Valid() && buf == old(buf)
    {
      hide Inv, ReaderEnabled, WriterEnabled, WriterApply;
      ReaderMayGo(View());
      ReaderKeepsInv(View());
      if reader == LookupSem {
        reader := if semExists then LookupShm else LookupFailed;
      } else {
        reader := if shmExists then AttachReadOnly else LookupFailed;
      }
    }

    /** Attaches the segment for reading and enters the loop, or gives up if it is gone. */
    method ReaderAttach()
      requires Valid() && reader == AttachReadOnly
      modifies this
      ensures old(Enabled(View(), ReaderStep)) && View() == old(Apply(View(), ReaderStep))
      ensures Valid() && buf == old(buf)
    {
      hide Inv, ReaderEnabled, WriterEnabled, WriterApply;
      ReaderMayGo(View());
      ReaderKeepsInv(View());
      if shmExists {
        readerAttached, readerXfrs, readerBytes, reader := true, 0, 0, AwaitReadable;
      } else {
        reader := LookupFailed;
      }
    }

    /** The three semops of the reader's loop. */
    method ReaderSemop() returns (moved: bool)
      requires Valid() && reader in {AwaitReadable, ReleaseWrite, MarkReadBusy}
      modifies this
      ensures moved <==> old(Enabled(View(), ReaderStep))
      ensures View() == if moved then old(Apply(View(), ReaderStep)) else old(View())
      ensures Valid() && buf == old(buf)
    {
      hide Inv, WriterEnabled, WriterApply, PastSetup;
      ghost var before := View();
      InvMeansObjectsPresent(before);
      moved := true;
      match reader {
        case AwaitReadable =>
          if readSem == 0 { reader := TestCount; } else { moved := false; }
        case ReleaseWrite =>
          if writeSem > 0 { writeSem, reader := writeSem - 1, MarkReadBusy; } else { moved := false; }
        case MarkReadBusy =>
          readSem, reader := readSem + 1, CountTransfer;
      }
      if moved {
        ReaderKeepsInv(before);
      }
    }

    /** The reader's use of the segment: test for the end, count the bytes, write them out. Never blocks. */
    method ReaderCopies()
      requires Valid() && reader in {TestCount, AddBytes, WriteOut}
      modifies this
      ensures old(Enabled(View(), ReaderStep)) && View() == old(Apply(View(), ReaderStep))
      ensures Valid() && buf == old(buf)
    {
      hide Inv, ReaderEnabled, WriterEnabled, WriterApply;
      ReaderMayGo(View());
      InvMeansObjectsPresent(View());
      ReaderKeepsInv(View());
      match reader {
        case TestCount =>
          reader := if cnt == 0 then DetachReader else AddBytes;
        case AddBytes =>
          readerBytes, reader := readerBytes + cnt, WriteOut;
        case WriteOut =>
          writes, reader := writes + [buf[..cnt]], ReleaseWrite;
      }
    }

    /** The end of the reader's loop body. */
    method ReaderCounts()
      requires Valid() && reader == CountTransfer
      modifies this
      ensures old(Enabled(View(), ReaderStep)) && View() == old(Apply(View(), ReaderStep))
      ensures Valid() && buf == old(buf)
    {
      hide Inv, ReaderEnabled, WriterEnabled, WriterApply;
      ReaderMayGo(View());
      ReaderKeepsInv(View());
      readerXfrs, reader := readerXfrs + 1, AwaitReadable;
    }

    /** Tear-down of the reader: detach, then release the writer for the last time. */
    method ReaderTearDown() returns (moved: bool)
      requires Valid() && reader in {DetachReader, LastRelease}
      modifies this
      ensures moved <==> old(Enabled(View(), ReaderStep))
      ensures View() == if moved then old(Apply(View(), ReaderStep)) else old(View())
      ensures Valid() && buf == old(buf)
    {
      hide Inv, WriterEnabled, WriterApply, PastSetup;
      ghost var before := View();
      InvMeansObjectsPresent(before);
      moved := reader == DetachReader || writeSem > 0;
      if reader == DetachReader {
        readerAttached, reader := false, LastRelease;
      } else if writeSem > 0 {
        writeSem, reader := writeSem - 1, ReaderExited;
      }
      if moved {
        ReaderKeepsInv(before);
      }
    }

    /** A reader that found an object missing is started again. */
    method ReaderRestarts()
      requires Valid() && reader == LookupFailed
      modifies this
      ensures View() == old(Apply(View(), ReaderRestart))
      ensures Valid() && buf == old(buf)
    {
      hide Inv;
      RestartKeepsInv(View());
      reader := LookupSem;
    }

    /** The writer tries its next statement; a read returns `bytes` bytes if it may. */
    method WriterTurn(bytes: nat) returns (moved: bool)
      requires Valid()
      modifies this, buf
      ensures moved <==> old(Enabled(View(), WriterEvent(View(), bytes)))
      ensures View() == if moved then old(Apply(View(), WriterEvent(View(), bytes))) else old(View())
      ensures Valid() && (buf == old(buf) || fresh(buf))
    {
      hide Inv, WriterApply, ReaderEnabled, ReaderApply;
      moved := true;
      match writer {
        case CreateShm => WriterCreateShm();
        case AttachReadWrite => WriterAttach();
        case AwaitWritable => moved := WriterSemop();
        case FillBuffer => WriterFill(Clip(unread, BUF_SIZE, bytes));
        case ReleaseRead => moved := WriterSemop();
        case MarkWriteBusy => moved := WriterSemop();
        case TestEof => WriterCounts();
        case CountChunk => WriterCounts();
        case AwaitLastRead => moved := WriterAwaitsLast();
        case RemoveSem => moved := WriterAwaitsLast();
        case DetachWriter => WriterTearDown();
        case RemoveShm => WriterTearDown();
        case WriterExited => moved := false;
        case _ => WriterSetUp();
      }
    }

    /** The reader tries its next statement, or is started again. */
    method ReaderTurn() returns (moved: bool)
      requires Valid()
      modifies this
      ensures moved <==> old(Enabled(View(), ReaderEvent(View())))
      ensures View() == if moved then old(Apply(View(), ReaderEvent(View()))) else old(View())
      ensures Valid() && buf == old(buf)
    {
      hide Inv, ReaderApply, WriterEnabled, WriterApply;
      moved := true;
      match reader {
        case LookupFailed => ReaderRestarts();
        case AttachReadOnly => ReaderAttach();
        case AwaitReadable => moved := ReaderSemop();
        case ReleaseWrite => moved := ReaderSemop();
        case MarkReadBusy => moved := ReaderSemop();
        case CountTransfer => ReaderCounts();
        case DetachReader => moved := ReaderTearDown();
        case LastRelease => moved := ReaderTearDown();
        case ReaderExited => moved := false;
        case LookupSem => ReaderLooksUp();
        case LookupShm => ReaderLooksUp();
        case _ => ReaderCopies();
      }
    }

    /** One of the two programs tries its next statement. */
    method Turn(pick: Pick) returns (moved: bool)
      requires Valid()
      modifies this, buf
      ensures moved <==> old(Enabled(View(), StepOf(View(), pick)))
      ensures View() == old(Attempt(View(), pick)) && (!moved ==> View() == old(View()))
      ensures Valid() && (buf == old(buf) || fresh(buf))
    {
      hide Inv, Enabled, Apply, WriterEvent, ReaderEvent;
      match pick {
        case Writer(bytes) => moved := WriterTurn(bytes);
        case Reader => moved := ReaderTurn();
      }
    }

    /** The writer tries its next statement, and if it is blocked the reader does. */
    method Round(ghost start: State, ghost picks: seq<Pick>) returns (ghost more: seq<Pick>)
      requires Valid() && !Finished(View()) && View() == Replay(Attempt, start, picks)
      modifies this, buf
      ensures Valid() && (buf == old(buf) || fresh(buf))
      ensures picks <= more && View() == Replay(Attempt, start, more)
      ensures Remaining(View()) < old(Remaining(View()))
    {
      hide Inv, Attempt, Enabled, Finished, StepOf, Remaining;
      TurnLowers(View());
      ReplayOneMore(Attempt, start, picks, Writer(1));
      more := picks + [Writer(1)];
      var moved := Turn(Writer(1));
      if !moved {
        ReplayOneMore(Attempt, start, more, Reader);
        more := more + [Reader];
        moved := Turn(Reader);
      }
    }

    /** Both programs under a schedule: first the picks in `turns`, in which the reader may come too early and be
        started again; then the writer whenever it can move, and otherwise the reader; `picks` are all these attempts.
        It always ends, with the whole input written out, the counters agreed and the objects removed. */
    method RunToEnd(turns: seq<Pick>) returns (ghost picks: seq<Pick>)
      requires Valid() && Fresh(View())
      modifies this, buf
      ensures turns <= picks && View() == Replay(Attempt, old(View()), picks)
      ensures Finished(View()) && Flatten(writes) == input && writes == chunks
      ensures writerBytes == readerBytes == |input| && writerXfrs == readerXfrs == |chunks|
      ensures !semExists && !shmExists
    {
      hide Inv, Attempt, Enabled, Fresh, StepOf, Remaining;
      ghost var start := View();
      ghost var own := buf;
      picks := [];
      var moved: bool;
      for k := 0 to |turns|
        invariant Valid() && (buf == own || fresh(buf))
        invariant picks == turns[..k] && View() == Replay(Attempt, start, picks)
      {
        ReplayOneMore(Attempt, start, picks, turns[k]);
        moved := Turn(turns[k]);
        picks := picks + [turns[k]];
      }
      while writer != WriterExited || reader != ReaderExited
        invariant Valid() && (buf == own || fresh(buf))
        invariant turns <= picks && View() == Replay(Attempt, start, picks)
        decreases Remaining(View())
      {
        picks := Round(start, picks);
      }
      EndIsDelivered(start, picks);
    }
  }

  /** Which program is tried next, and how many bytes a read of the writer returns if it may. */
  datatype Pick = Writer(bytes: nat) | Reader

  function WriterEvent(s: State, bytes: nat): Event {
    WriterStep(if s.writer == FillBuffer then Clip(s.unread, BUF_SIZE, bytes) else 0)
  }

  function ReaderEvent(s: State): Event {
    if s.reader == LookupFailed then ReaderRestart else ReaderStep
  }

  function StepOf(s: State, pick: Pick): Event {
    match pick
    case Writer(bytes) => WriterEvent(s, bytes)
    case Reader => ReaderEvent(s)
  }

  function Attempt(s: State, pick: Pick): State {
    if Enabled(s, StepOf(s, pick)) then Apply(s, StepOf(s, pick)) else s
  }

  /** The measure of the transfer, extended to a reader that is not in its loop yet. */
  function Remaining(s: State): nat {
    if !Outside(s.reader) then Measure(s)
    else
      WriterRank(s) + 7 * (|s.unread| + if Holding(s) then 1 else 0)
        + match s.reader
          case LookupFailed => 8
          case LookupSem => 7
          case LookupShm => 6
          case _ => 5
  }

  /** The writer's attempt lowers the measure, or else the reader's does. */
  lemma TurnLowers(s: State)
    requires Inv(s) && !Finished(s)
    ensures
      if Enabled(s, StepOf(s, Writer(1))) then Remaining(Attempt(s, Writer(1))) < Remaining(s)
      else Remaining(Attempt(s, Reader)) < Remaining(s)
  {
    hide Inv, Enabled, Apply, StepOf, Remaining;
    if Enabled(s, StepOf(s, Writer(1))) {
      WriterTurnLowers(s, Attempt(s, Writer(1)));
    } else {
      ReaderTurnLowers(s, Attempt(s, Reader));
    }
  }

  lemma WriterTurnLowers(s: State, t: State)
    requires Inv(s) && Enabled(s, StepOf(s, Writer(1))) && t == Apply(s, StepOf(s, Writer(1)))
    ensures Remaining(t) < Remaining(s)
  {
    var n := WriterEvent(s, 1).n;
    if !Outside(s.reader) {
      hide Inv, WriterEnabled, WriterApply, Measure;
      AttachedWriterStepLowers(s, n);
      assert t == WriterApply(s, n);
      WriterKeepsReader(s, n);
    } else {
      EarlyWriterLowers(s, n);
    }
  }

  lemma WriterKeepsReader(s: State, n: nat)
    requires WriterEnabled(s, n)
    ensures WriterApply(s, n).reader == s.reader
  {
  }

  lemma EarlyWriterLowers(s: State, n: nat)
    requires Inv(s) && Outside(s.reader) && WriterEnabled(s, n)
    ensures Remaining(WriterApply(s, n)) < Remaining(s)
  {
    hide StreamsOk, WriterCountersOk, ReaderCountersOk, AttachmentsOk;
    if s.writer != FillBuffer && PastSetup(s.writer) {
      WriterKeepsHolding(s, n);
    }
  }

  /** While the writer is blocked, both objects exist and the reader can move. */
  lemma ReaderTurnLowers(s: State, t: State)
    requires Inv(s) && !Finished(s) && !Enabled(s, StepOf(s, Writer(1)))
    requires t == if Enabled(s, StepOf(s, Reader)) then Apply(s, StepOf(s, Reader)) else s
    ensures Remaining(t) < Remaining(s)
  {
    BlockedWriter(s);
    hide Inv, WriterEnabled, ReaderEnabled, ReaderApply, Remaining, WriterBlocks;
    if Outside(s.reader) {
      LateReaderLowers(s);
    } else {
      assert t == ReaderApply(s);
      AttachedReaderStepLowers(s);
      LoopIsMeasured(s);
      LoopIsMeasured(t);
    }
  }

  lemma LoopIsMeasured(s: State)
    requires !Outside(s.reader)
    ensures Remaining(s) == Measure(s)
  {
  }

  lemma BlockedWriter(s: State)
    requires Inv(s) && !Finished(s) && !Enabled(s, StepOf(s, Writer(1)))
    ensures Enabled(s, ReaderEvent(s)) && WriterBlocks(s.writer) && s.writer != FillBuffer
    ensures Outside(s.reader) ==> s.semExists && s.shmExists
  {
  }

  lemma LateReaderLowers(s: State)
    requires Outside(s.reader) && s.semExists && s.shmExists
    ensures Enabled(s, ReaderEvent(s)) && Remaining(Apply(s, ReaderEvent(s))) < Remaining(s)
  {
    var t := Apply(s, ReaderEvent(s));
    LateReaderFrame(s);
    hide ReaderApply, WriterRank, Holding;
  }

  /** A reader on its way to the loop leaves everything to the writer. */
  lemma LateReaderFrame(s: State)
    requires Outside(s.reader) && s.semExists && s.shmExists
    ensures Enabled(s, ReaderEvent(s))
    ensures
      var t := Apply(s, ReaderEvent(s));
      && WriterRank(t) == WriterRank(s) && Holding(t) == Holding(s) && t.unread == s.unread
      && t.reader == match s.reader
                     case LookupFailed => LookupSem
                     case LookupSem => LookupShm
                     case LookupShm => AttachReadOnly
                     case _ => AwaitReadable
  {
  }

  lemma FinishedIsStuck(s: State)
    requires Finished(s)
    ensures Stuck(s)
  {
  }

  /** The attempts make a run, about which the theorem speaks. */
  lemma EndIsDelivered(start: State, picks: seq<Pick>)
    requires Fresh(start) && Finished(Replay(Attempt, start, picks))
    ensures
      var s := Replay(Attempt, start, picks);
      && Flatten(s.writes) == start.input == s.input && s.writes == s.chunks
      && s.writerBytes == s.readerBytes == |start.input| && s.writerXfrs == s.readerXfrs == |s.chunks|
      && !s.semExists && !s.shmExists
  {
    hide Enabled, Apply, Fresh;
    forall s: State, pick: Pick
      ensures Attempt(s, pick) == s || Next(s, Attempt(s, pick))
    {
    }
    hide Next, Attempt;
    var run := ReplayIsRun(Next, Attempt, start, picks);
    FinishedIsStuck(run[|run| - 1]);
    hide Stuck;
    CompleteRunDelivers(run);
    FreshRunKeepsInv(run);
  }
}
