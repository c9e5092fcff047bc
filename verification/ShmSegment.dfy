/** What the shared buffer holds behind the current chunk: bytes of older, longer chunks, and zeros where no chunk has
    reached yet. */
module ShmSegment {
  import opened Streams
  import opened Runs
  import opened ShmTransfer

  /** The byte at `k` of the last chunk that is longer than `k`; zero if there was none. */
  function Remembered(chunks: seq<seq<byte>>, k: nat): byte {
    if chunks == [] then 0
    else if k < |chunks[|chunks| - 1]| then chunks[|chunks| - 1][k]
    else Remembered(chunks[..|chunks| - 1], k)
  }

  predicate Remembers(s: State) {
    PastSetup(s.writer) ==>
      |s.buf| == 1024 && forall k: nat :: k < 1024 ==> s.buf[k] == Remembered(s.chunks, k)
  }

  lemma FillRemembers(s: State, n: nat)
    requires Remembers(s) && s.writer == FillBuffer && WriterEnabled(s, n)
    ensures Remembers(WriterApply(s, n))
  {
    var t := WriterApply(s, n);
    assert s.chunks + [s.unread[..n]] == t.chunks || n == 0;
    assert n > 0 ==> t.chunks[..|t.chunks| - 1] == s.chunks;
  }

  lemma CreateRemembers(s: State)
    requires SetupOk(s) && s.writer == CreateShm
    ensures WriterEnabled(s, 0) && Remembers(WriterApply(s, 0))
  {
  }

  predicate SameBuffer(s: State, t: State) {
    t.buf == s.buf && t.chunks == s.chunks && (PastSetup(t.writer) <==> PastSetup(s.writer))
  }

  /** Nothing but the creation of the segment and the writer's read touches the buffer. */
  lemma WriterLeavesBuffer(s: State, n: nat)
    requires WriterEnabled(s, n) && s.writer != FillBuffer && s.writer != CreateShm
    ensures SameBuffer(s, WriterApply(s, n))
  {
    hide WriterApply, SameBuffer;
    if s.writer in {CreateSem, SetAll, AttachReadWrite} {
      SetUpLeavesBuffer(s, n);
    } else if s.writer == AwaitLastRead || PastTransfer(s.writer) {
      TearDownLeavesBuffer(s, n);
    } else {
      LoopLeavesBuffer(s, n);
    }
  }

  lemma SetUpLeavesBuffer(s: State, n: nat)
    requires WriterEnabled(s, n) && s.writer in {CreateSem, SetAll, AttachReadWrite}
    ensures SameBuffer(s, WriterApply(s, n))
  {
  }

  lemma LoopLeavesBuffer(s: State, n: nat)
    requires WriterEnabled(s, n) && s.writer in {AwaitWritable, ReleaseRead, MarkWriteBusy, TestEof, CountChunk}
    ensures SameBuffer(s, WriterApply(s, n))
  {
  }

  lemma TearDownLeavesBuffer(s: State, n: nat)
    requires WriterEnabled(s, n) && (s.writer == AwaitLastRead || PastTransfer(s.writer))
    ensures SameBuffer(s, WriterApply(s, n))
  {
  }

  lemma StepKeepsMemory(s: State, t: State)
    requires Inv(s) && Remembers(s) && Next(s, t)
    ensures Remembers(t)
  {
    hide WriterApply, ReaderApply, WriterEnabled, ReaderEnabled, AttachmentsOk, SetupOk, Handshake, CountOk, StreamsOk;
    var e :| Enabled(s, e) && t == Apply(s, e);
    match e
    case WriterStep(n) =>
      if s.writer == FillBuffer {
        FillRemembers(s, n);
      } else if s.writer == CreateShm {
        CreateRemembers(s);
        SameForAnyCount(s, n);
      } else {
        WriterLeavesBuffer(s, n);
      }
    case ReaderStep => ReaderRemovesNothing(s);
    case ReaderRestart =>
  }

  lemma SameForAnyCount(s: State, n: nat)
    requires s.writer == CreateShm
    ensures WriterEnabled(s, n) && WriterEnabled(s, 0) && WriterApply(s, n) == WriterApply(s, 0)
  {
  }

  /** In every state of every run from a start without a segment each byte of the buffer is the one that the last chunk
      long enough left there, and zero before that. */
  lemma SegmentRemembers(run: seq<State>, k: nat)
    requires IsRun(Next, run) && Fresh(run[0]) && k < |run|
    ensures Remembers(run[k])
  {
    hide Inv, Next, Remembers, Fresh;
    var inv := (s: State) => Inv(s) && Remembers(s);
    forall s, t | inv(s) && Next(s, t)
      ensures inv(t)
    {
      StepKeepsInv(s, t);
      StepKeepsMemory(s, t);
    }
    FreshInv(run[0]);
    FreshRemembers(run[0]);
    InvariantHolds(Next, inv, run);
    assert inv(run[k]);
  }

  lemma FreshRemembers(s: State)
    requires Fresh(s)
    ensures Remembers(s)
  {
  }
}
