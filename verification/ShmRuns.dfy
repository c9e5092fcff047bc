/** Runs that the shared-memory transfer has: every cutting of the input into chunks, a writer that runs ahead of its
    reader, and a reader that starts as early as it can. */
module ShmRuns {
  import opened Streams
  import opened Runs
  import opened ShmTransfer

  /** The run goes on with event `e`. */
  lemma Go(run: seq<State>, e: Event) returns (longer: seq<State>)
    requires IsRun(Next, run) && Enabled(run[|run| - 1], e)
    ensures IsRun(Next, longer) && run <= longer && longer[|longer| - 1] == Apply(run[|run| - 1], e)
  {
    var t := Apply(run[|run| - 1], e);
    ExtendRun(Next, run, t);
    longer := run + [t];
  }

  /** The writer alone, up to its first wait. */
  lemma WriterStarts(start: State) returns (run: seq<State>)
    requires Fresh(start)
    ensures IsRun(Next, run) && run[0] == start
    ensures
      var t := run[|run| - 1];
      && t.writer == AwaitWritable && t.writerAttached && t.reader == LookupSem && t.semExists && t.shmExists
      && t.writeSem == 0 && t.readSem == 1 && |t.buf| == 1024
      && t.unread == t.input == start.input && t.chunks == [] && t.writes == []
  {
    run := Go([start], WriterStep(0));
    run := Go(run, WriterStep(0));
    run := Go(run, WriterStep(0));
    run := Go(run, WriterStep(0));
  }

  /** A segment that is left over from before is taken as it is. */
  lemma StaleSegmentIsKept(start: State) returns (run: seq<State>)
    requires Starting(start) && start.shmExists
    ensures IsRun(Next, run) && run[0] == start
    ensures
      var t := run[|run| - 1];
      t.writer == AttachReadWrite && t.shmExists && t.buf == start.buf && t.cnt == start.cnt
  {
    run := Go([start], WriterStep(0));
    run := Go(run, WriterStep(0));
    run := Go(run, WriterStep(0));
  }

  /** The writer fills the buffer with any first chunk, and releases it, before any reader has been started. */
  lemma WriterRunsAhead(start: State, n: nat) returns (run: seq<State>)
    requires Fresh(start) && n <= 1024 && n <= |start.input| && (n == 0 <==> start.input == [])
    ensures IsRun(Next, run) && run[0] == start
    ensures
      var t := run[|run| - 1];
      && t.writer == MarkWriteBusy && t.reader == LookupSem && t.readSem == 0
      && t.cnt == n && |t.buf| == 1024 && t.buf[..n] == start.input[..n] && t.unread == start.input[n..]
  {
    run := WriterStarts(start);
    run := Go(run, WriterStep(0));
    run := Go(run, WriterStep(n));
    run := Go(run, WriterStep(0));
  }

  /** The reader finds the semaphores as soon as they exist, even before they have been initialised, and the segment as
      soon as that exists: it is in its loop before the writer is. */
  lemma ReaderStartsEarly(start: State) returns (early: seq<State>, run: seq<State>)
    requires Fresh(start)
    ensures IsRun(Next, run) && early <= run && |early| > 0 && run[0] == start
    ensures
      var t := early[|early| - 1];
      t.reader == LookupShm && t.writer == SetAll && !t.initialised && !t.shmExists
    ensures
      var t := run[|run| - 1];
      t.reader == AwaitReadable && t.writer == AttachReadWrite
  {
    early := Go([start], WriterStep(0));
    early := Go(early, ReaderStep);
    run := Go(early, WriterStep(0));
    run := Go(run, WriterStep(0));
    run := Go(run, ReaderStep);
    run := Go(run, ReaderStep);
  }

  /** Both programs are at the head of their loops, and `left` is still to be read. */
  predicate BothReady(t: State, left: seq<byte>) {
    && t.writer == AwaitWritable && t.writerAttached && t.reader == AwaitReadable && t.readerAttached
    && t.semExists && t.shmExists && t.writeSem == 0 && t.readSem == 1 && |t.buf| == 1024 && t.unread == left
  }

  lemma BothStart(start: State) returns (run: seq<State>)
    requires Fresh(start)
    ensures IsRun(Next, run) && run[0] == start
    ensures BothReady(run[|run| - 1], start.input) && run[|run| - 1].writes == []
  {
    run := WriterStarts(start);
    run := Go(run, ReaderStep);
    run := Go(run, ReaderStep);
    run := Go(run, ReaderStep);
  }

  /** The writer's loop body for a read of `n` bytes. */
  lemma WriterRound(run: seq<State>, n: nat, left: seq<byte>) returns (longer: seq<State>)
    requires IsRun(Next, run) && BothReady(run[|run| - 1], left)
    requires n <= 1024 && n <= |left| && (n == 0 <==> left == [])
    ensures IsRun(Next, longer) && longer[0] == run[0]
    ensures
      var s, t := run[|run| - 1], longer[|longer| - 1];
      && t.writer == (if n == 0 then AwaitLastRead else AwaitWritable) && t.writerAttached == s.writerAttached
      && t.reader == s.reader && t.readerAttached == s.readerAttached && t.semExists && t.shmExists
      && t.writeSem == 1 && t.readSem == 0 && t.cnt == n && |t.buf| == 1024 && t.buf[..n] == left[..n]
      && t.unread == left[n..] && t.writes == s.writes
  {
    longer := Go(run, WriterStep(0));
    longer := Go(longer, WriterStep(n));
    longer := WriterFinishes(longer, n);
  }

  lemma WriterFinishes(run: seq<State>, n: nat) returns (longer: seq<State>)
    requires IsRun(Next, run)
    requires
      var s := run[|run| - 1];
      && s.writer == ReleaseRead && s.writerAttached && s.semExists && s.readSem == 1 && s.writeSem == 0 && s.cnt == n
    ensures IsRun(Next, longer) && run <= longer
    ensures
      var s, t := run[|run| - 1], longer[|longer| - 1];
      t == s.(writer := t.writer, writeSem := 1, readSem := 0, writerXfrs := t.writerXfrs, writerBytes := t.writerBytes)
      && t.writer == if n == 0 then AwaitLastRead else AwaitWritable
  {
    longer := Go(run, WriterStep(0));
    longer := Go(longer, WriterStep(0));
    longer := Go(longer, WriterStep(0));
    if n > 0 {
      longer := Go(longer, WriterStep(0));
    }
  }

  /** The reader's loop body for a chunk of `n` bytes. */
  lemma ReaderRound(run: seq<State>, n: nat) returns (longer: seq<State>)
    requires IsRun(Next, run)
    requires
      var s := run[|run| - 1];
      && s.reader == AwaitReadable && s.readerAttached && s.semExists && s.writeSem == 1 && s.readSem == 0
      && s.cnt == n && 0 < n <= |s.buf|
    ensures IsRun(Next, longer) && run <= longer
    ensures
      var s, t := run[|run| - 1], longer[|longer| - 1];
      t == s.(writeSem := 0, readSem := 1, readerXfrs := t.readerXfrs, readerBytes := t.readerBytes,
              writes := s.writes + [s.buf[..n]])
  {
    longer := Go(run, ReaderStep);
    longer := Go(longer, ReaderStep);
    longer := Go(longer, ReaderStep);
    longer := Go(longer, ReaderStep);
    longer := ReaderGivesBack(longer);
  }

  lemma ReaderGivesBack(run: seq<State>) returns (longer: seq<State>)
    requires IsRun(Next, run)
    requires
      var s := run[|run| - 1];
      s.reader == ReleaseWrite && s.semExists && s.writeSem == 1 && s.readSem == 0
    ensures IsRun(Next, longer) && run <= longer
    ensures
      var s, t := run[|run| - 1], longer[|longer| - 1];
      t == s.(reader := AwaitReadable, writeSem := 0, readSem := 1, readerXfrs := t.readerXfrs)
  {
    longer := Go(run, ReaderStep);
    longer := Go(longer, ReaderStep);
    longer := Go(longer, ReaderStep);
  }

  lemma {:induction false} AllChunks(run: seq<State>, cs: seq<seq<byte>>) returns (longer: seq<State>)
    requires IsRun(Next, run) && BothReady(run[|run| - 1], Flatten(cs))
    requires forall k :: 0 <= k < |cs| ==> 1 <= |cs[k]| <= 1024
    ensures IsRun(Next, longer) && longer[0] == run[0]
    ensures BothReady(longer[|longer| - 1], []) && longer[|longer| - 1].writes == run[|run| - 1].writes + cs
    decreases |cs|
  {
    if cs == [] {
      longer := run;
      assert run[|run| - 1].writes + cs == run[|run| - 1].writes;
    } else {
      var n, more := |cs[0]|, cs[1..];
      assert Flatten(cs)[..n] == cs[0] && Flatten(cs)[n..] == Flatten(more);
      longer := WriterRound(run, n, Flatten(cs));
      longer := ReaderRound(longer, n);
      longer := AllChunks(longer, more);
      assert run[|run| - 1].writes + cs == run[|run| - 1].writes + [cs[0]] + more;
    }
  }

  /** The end of the input: both programs finish. */
  lemma BothFinish(run: seq<State>) returns (longer: seq<State>)
    requires IsRun(Next, run) && BothReady(run[|run| - 1], [])
    ensures IsRun(Next, longer) && longer[0] == run[0]
    ensures Finished(longer[|longer| - 1]) && longer[|longer| - 1].writes == run[|run| - 1].writes
  {
    longer := WriterRound(run, 0, []);
    longer := Go(longer, ReaderStep);
    longer := Go(longer, ReaderStep);
    longer := Go(longer, ReaderStep);
    longer := Go(longer, ReaderStep);
    longer := WriterRemoves(longer);
  }

  lemma WriterRemoves(run: seq<State>) returns (longer: seq<State>)
    requires IsRun(Next, run)
    requires
      var s := run[|run| - 1];
      s.writer == AwaitLastRead && s.semExists && s.writeSem == 0
    ensures IsRun(Next, longer) && run <= longer
    ensures
      var s, t := run[|run| - 1], longer[|longer| - 1];
      t == s.(writer := WriterExited, semExists := false, writerAttached := false, shmExists := false)
  {
    longer := Go(run, WriterStep(0));
    longer := Go(longer, WriterStep(0));
    longer := Go(longer, WriterStep(0));
    longer := Go(longer, WriterStep(0));
  }

  /** From every start without a segment, and for every cutting of the input into chunks of 1 to 1024 bytes, some run
      ends with exactly these chunks written out. */
  lemma AnyCuttingIsTransferred(start: State, cs: seq<seq<byte>>) returns (run: seq<State>)
    requires Fresh(start) && Flatten(cs) == start.input && forall k :: 0 <= k < |cs| ==> 1 <= |cs[k]| <= 1024
    ensures IsRun(Next, run) && run[0] == start
    ensures Finished(run[|run| - 1]) && run[|run| - 1].writes == cs
  {
    run := BothStart(start);
    run := AllChunks(run, cs);
    assert [] + cs == cs;
    run := BothFinish(run);
  }
}
