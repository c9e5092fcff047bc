/** What the output file holds, told from the record of truncations and writes alone, however many clients have it open:
    which client wrote each byte last, and how far the writes since the last truncation reach. */
module OutputTrace {
  import opened Streams
  import opened Runs
  import opened FileSession
  import opened FileServer

  /** Who put a byte where it is: it was there from the start, nobody did since the last truncation, or a client. */
  datatype Author = Initial | Nobody | By(i: nat)

  function LastAuthor(trace: seq<FileOp>, k: nat): Author {
    if trace == [] then Initial
    else
      match trace[|trace| - 1]
      case Truncate(_) => Nobody
      case Write(i, offset, data) =>
        if offset <= k < offset + |data| then By(i) else LastAuthor(trace[..|trace| - 1], k)
  }

  /** The largest end of a nonempty write since the last truncation; `initial` if there was none. */
  function End(trace: seq<FileOp>, initial: nat): nat {
    if trace == [] then initial
    else
      match trace[|trace| - 1]
      case Truncate(_) => 0
      case Write(_, offset, data) =>
        var before := End(trace[..|trace| - 1], initial);
        if data != [] && before < offset + |data| then offset + |data| else before
  }

  /** The file ends where the writes end, and every byte is the one its last author has at that place; bytes nobody
      wrote are zero. */
  predicate AsWritten(start: State, s: State) {
    && |s.output| == End(s.trace, |start.output|)
    && forall k: nat :: k < |s.output| ==>
         match LastAuthor(s.trace, k)
         case Initial => k < |start.output| && s.output[k] == start.output[k]
         case Nobody => s.output[k] == 0
         case By(i) =>
           i < |s.sessions| && k < |s.sessions[i].client.written| && s.output[k] == s.sessions[i].client.written[k]
  }

  // ---------------------------------------------------------------------------------------------
  // The record itself

  /** What client `i` has written, according to the record. */
  function WrittenBy(trace: seq<FileOp>, i: nat): seq<byte> {
    if trace == [] then []
    else
      var before := WrittenBy(trace[..|trace| - 1], i);
      match trace[|trace| - 1]
      case Truncate(_) => before
      case Write(j, _, data) => if i == j then before + data else before
  }

  /** How often client `i` has truncated the file. */
  function Truncations(trace: seq<FileOp>, i: nat): nat {
    if trace == [] then 0
    else Truncations(trace[..|trace| - 1], i) + if trace[|trace| - 1] == Truncate(i) then 1 else 0
  }

  /** The client has opened the output file. */
  predicate HasTruncated(c: Client) {
    FileOpen(c) || c.reported
  }

  /** Each client truncates once, when it opens the file, and then writes from the beginning on, each write where its
      last one ended: these writes are all it has written. */
  predicate RecordOk(s: State) {
    && (forall i: nat :: i < |s.sessions| ==>
          && WrittenBy(s.trace, i) == s.sessions[i].client.written
          && Truncations(s.trace, i) == if HasTruncated(s.sessions[i].client) then 1 else 0)
    && forall p: nat :: p < |s.trace| && s.trace[p].Write? ==>
         var op := s.trace[p];
         && op.i < |s.sessions| && op.offset == |WrittenBy(s.trace[..p], op.i)|
         && Truncations(s.trace[..p], op.i) == 1
  }

  lemma Unfold(trace: seq<FileOp>, op: FileOp)
    ensures (trace + [op])[..|trace + [op]| - 1] == trace && (trace + [op])[|trace + [op]| - 1] == op
  {
  }

  /** The operation of a client's statement, if it has one. */
  predicate Writes(c: Client, a: Action) {
    a == ClientAct && c.pc in {WriteFirst, HandleNext}
  }

  lemma ClientRecord(disk: Disk, qbytes: nat, s: Session, a: Action)
    requires SessionOk(disk, s) && CanAct(disk, qbytes, s, a)
    ensures
      var c, d := s.client, Do(disk, qbytes, s, a).client;
      if Creates(c, a) then c.written == d.written == [] && !HasTruncated(c) && HasTruncated(d)
      else if Writes(c, a) then d.written == c.written + c.resp.data && HasTruncated(c) && HasTruncated(d)
      else d.written == c.written && (HasTruncated(d) <==> HasTruncated(c))
  {
    hide ChildOk, Payload, Room, ChildLocal, Sent, TakeChunk;
  }

  lemma StepKeepsRecord(s: State, t: State)
    requires Inv(s) && RecordOk(s) && Next(s, t)
    ensures RecordOk(t)
  {
    hide CanAct, FindsOutput, Do, OutputAfter, Inv, RecordOk, HasTruncated;
    var e :| Enabled(s, e) && t == Apply(s, e);
    match e
    case Local(i, a) => LocalKeepsRecord(s, i, a);
    case Submit(i) =>
      AskingFrame(s.sessions[i]);
      FrameKeepsRecord(s, t);
    case ServerReceives => FrameKeepsRecord(s, t);
    case ServerForks => FrameKeepsRecord(s, t);
  }

  lemma LocalKeepsRecord(s: State, i: nat, a: Action)
    requires Inv(s) && RecordOk(s) && Enabled(s, Local(i, a))
    ensures RecordOk(Apply(s, Local(i, a)))
  {
    var t := Apply(s, Local(i, a));
    var c := s.sessions[i].client;
    SessionIsOk(s, i);
    ClientRecord(s.disk, s.qbytes, s.sessions[i], a);
    hide CanAct, FindsOutput, Do, OutputAfter, Inv, RecordOk, HasTruncated, SessionOk;
    if Creates(c, a) {
      TruncateKeepsRecord(s, t, i);
    } else if Writes(c, a) {
      WriteKeepsRecord(s, t, i, c.resp.data);
    } else {
      FrameKeepsRecord(s, t);
    }
  }

  lemma AskingFrame(s: Session)
    requires s.client.pc == SendRequest
    ensures Asked(s).client.written == s.client.written
    ensures HasTruncated(Asked(s).client) <==> HasTruncated(s.client)
  {
  }

  /** Nobody has written anything or opened the file. */
  lemma FrameKeepsRecord(s: State, t: State)
    requires RecordOk(s) && t.trace == s.trace && |t.sessions| == |s.sessions|
    requires forall i :: 0 <= i < |s.sessions| ==>
      && t.sessions[i].client.written == s.sessions[i].client.written
      && (HasTruncated(t.sessions[i].client) <==> HasTruncated(s.sessions[i].client))
    ensures RecordOk(t)
  {
    hide HasTruncated, WrittenBy, Truncations;
  }

  lemma TruncateKeepsRecord(s: State, t: State, i: nat)
    requires RecordOk(s) && i < |s.sessions| && t.trace == s.trace + [Truncate(i)]
    requires |t.sessions| == |s.sessions| && t.sessions == s.sessions[i := t.sessions[i]]
    requires t.sessions[i].client.written == s.sessions[i].client.written
    requires !HasTruncated(s.sessions[i].client) && HasTruncated(t.sessions[i].client)
    ensures RecordOk(t)
  {
    Unfold(s.trace, Truncate(i));
    forall j: nat | j < |t.sessions|
      ensures WrittenBy(t.trace, j) == t.sessions[j].client.written
      ensures Truncations(t.trace, j) == if HasTruncated(t.sessions[j].client) then 1 else 0
    {
      assert WrittenBy(s.trace, j) == s.sessions[j].client.written;
    }
    PrefixesKept(s, t, Truncate(i));
  }

  lemma WriteKeepsRecord(s: State, t: State, i: nat, data: seq<byte>)
    requires RecordOk(s) && i < |s.sessions|
    requires t.trace == s.trace + [Write(i, |s.sessions[i].client.written|, data)]
    requires |t.sessions| == |s.sessions| && t.sessions == s.sessions[i := t.sessions[i]]
    requires t.sessions[i].client.written == s.sessions[i].client.written + data
    requires HasTruncated(s.sessions[i].client) && HasTruncated(t.sessions[i].client)
    ensures RecordOk(t)
  {
    var op := Write(i, |s.sessions[i].client.written|, data);
    Unfold(s.trace, op);
    forall j: nat | j < |t.sessions|
      ensures WrittenBy(t.trace, j) == t.sessions[j].client.written
      ensures Truncations(t.trace, j) == if HasTruncated(t.sessions[j].client) then 1 else 0
    {
      assert WrittenBy(s.trace, j) == s.sessions[j].client.written;
    }
    PrefixesKept(s, t, op);
  }

  lemma PrefixesKept(s: State, t: State, op: FileOp)
    requires RecordOk(s) && t.trace == s.trace + [op] && |t.sessions| == |s.sessions|
    requires op.Write? ==>
      op.i < |s.sessions| && op.offset == |WrittenBy(s.trace, op.i)| && Truncations(s.trace, op.i) == 1
    ensures forall p: nat :: p < |t.trace| && t.trace[p].Write? ==>
      var q := t.trace[p];
      && q.i < |t.sessions| && q.offset == |WrittenBy(t.trace[..p], q.i)| && Truncations(t.trace[..p], q.i) == 1
  {
    hide WrittenBy, Truncations, HasTruncated;
    forall p: nat | p < |t.trace| && t.trace[p].Write?
      ensures
        var q := t.trace[p];
        && q.i < |t.sessions| && q.offset == |WrittenBy(t.trace[..p], q.i)| && Truncations(t.trace[..p], q.i) == 1
    {
      assert t.trace[..p] == s.trace[..p];
      if p < |s.trace| {
        assert t.trace[p] == s.trace[p];
      } else {
        assert s.trace[..p] == s.trace;
      }
    }
  }

  // ---------------------------------------------------------------------------------------------
  // The file

  lemma StepKeepsAsWritten(start: State, s: State, t: State)
    requires Inv(s) && RecordOk(s) && AsWritten(start, s) && Next(s, t)
    ensures AsWritten(start, t)
  {
    hide CanAct, FindsOutput, Do, Inv, AsWritten, RecordOk, WriteAt;
    var e :| Enabled(s, e) && t == Apply(s, e);
    match e
    case Local(i, a) =>
      SessionIsOk(s, i);
      var c := s.sessions[i].client;
      ClientRecord(s.disk, s.qbytes, s.sessions[i], a);
      if Creates(c, a) {
        TruncateKeepsFile(start, s, t, i);
      } else if Writes(c, a) {
        WriterHasTruncated(s, i);
        WriteKeepsFile(start, s, t, i, c.resp.data);
      } else {
        FrameKeepsFile(start, s, t);
      }
    case Submit(i) => FrameKeepsFile(start, s, t);
    case ServerReceives => FrameKeepsFile(start, s, t);
    case ServerForks => FrameKeepsFile(start, s, t);
  }

  lemma FrameKeepsFile(start: State, s: State, t: State)
    requires AsWritten(start, s) && t.trace == s.trace && t.output == s.output && |t.sessions| == |s.sessions|
    requires forall i :: 0 <= i < |s.sessions| ==> t.sessions[i].client.written == s.sessions[i].client.written
    ensures AsWritten(start, t)
  {
    hide LastAuthor, End;
  }

  lemma TruncateKeepsFile(start: State, s: State, t: State, i: nat)
    requires AsWritten(start, s) && t.trace == s.trace + [Truncate(i)] && t.output == []
    ensures AsWritten(start, t)
  {
    Unfold(s.trace, Truncate(i));
  }

  /** The bytes written are the client's own, the others stay, and a gap before them is filled with zeros. */
  lemma WriteKeepsFile(start: State, s: State, t: State, i: nat, data: seq<byte>)
    requires AsWritten(start, s) && i < |s.sessions| == |t.sessions|
    requires t.trace == s.trace + [Write(i, |s.sessions[i].client.written|, data)]
    requires t.output == WriteAt(s.output, |s.sessions[i].client.written|, data)
    requires t.sessions == s.sessions[i := t.sessions[i]]
    requires t.sessions[i].client.written == s.sessions[i].client.written + data && Truncations(s.trace, i) > 0
    ensures AsWritten(start, t)
  {
    var offset := |s.sessions[i].client.written|;
    var op := Write(i, offset, data);
    Unfold(s.trace, op);
    assert |t.output| == End(t.trace, |start.output|);
    hide End;
    forall k: nat | k < |t.output|
      ensures
        match LastAuthor(t.trace, k)
        case Initial => k < |start.output| && t.output[k] == start.output[k]
        case Nobody => t.output[k] == 0
        case By(j) =>
          j < |t.sessions| && k < |t.sessions[j].client.written| && t.output[k] == t.sessions[j].client.written[k]
    {
      if offset <= k < offset + |data| {
        assert LastAuthor(t.trace, k) == By(i);
        assert t.output[k] == data[k - offset];
      } else {
        assert LastAuthor(t.trace, k) == LastAuthor(s.trace, k);
        if k < |s.output| {
          assert t.output[k] == s.output[k];
        } else {
          BehindTheEnd(s.trace, |start.output|, k, i);
        }
      }
    }
  }

  lemma WriterHasTruncated(s: State, i: nat)
    requires RecordOk(s) && i < |s.sessions| && HasTruncated(s.sessions[i].client)
    ensures Truncations(s.trace, i) > 0
  {
    hide WrittenBy;
  }

  /** After a truncation nobody has written behind the largest end of a write. */
  lemma {:induction false} BehindTheEnd(trace: seq<FileOp>, initial: nat, k: nat, i: nat)
    requires End(trace, initial) <= k && Truncations(trace, i) > 0
    ensures LastAuthor(trace, k) == Nobody
  {
    if trace[|trace| - 1].Truncate? {
    } else {
      BehindTheEnd(trace[..|trace| - 1], initial, k, i);
    }
  }

  // ---------------------------------------------------------------------------------------------
  // Every run

  /** Whatever clients have the output file open together, in every state of every run it ends where the writes since
      the last truncation end, and each byte is the one that the client who wrote there last has at that place, or
      zero if nobody did. The record that says so has each client's truncation and then its writes, one behind the
      other. */
  lemma OutputIsAsWritten(run: seq<State>, k: nat)
    requires IsRun(Next, run) && Starting(run[0]) && k < |run|
    ensures AsWritten(run[0], run[k]) && RecordOk(run[k])
  {
    hide Inv, Next, AsWritten, RecordOk, Starting;
    var start := run[0];
    var inv := (s: State) => Inv(s) && RecordOk(s) && AsWritten(start, s);
    forall s, t | inv(s) && Next(s, t)
      ensures inv(t)
    {
      StepKeepsInv(s, t);
      StepKeepsRecord(s, t);
      StepKeepsAsWritten(start, s, t);
    }
    StartInv(start);
    StartRecorded(start);
    InvariantHolds(Next, inv, run);
    assert inv(run[k]);
  }

  lemma StartRecorded(start: State)
    requires Starting(start)
    ensures RecordOk(start) && AsWritten(start, start)
  {
  }
}
