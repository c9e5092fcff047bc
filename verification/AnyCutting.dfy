/** Every cutting of a file into messages comes about: a read may return any number of bytes up to the size of its
    buffer, and no schedule or size is ruled out. */
module AnyCutting {
  import opened Streams
  import opened Runs
  import opened FileSession
  import opened FileServer
  import opened OutputFile

  function Chunks(pieces: seq<seq<byte>>): seq<Message> {
    seq(|pieces|, k requires 0 <= k < |pieces| => Message(DataMsg, pieces[k]))
  }

  /** Client `i` has taken `got`, its queue is empty, and its child is about to read `rest` of a fixed file. */
  predicate Midway(s: State, i: nat, got: seq<Message>, rest: seq<byte>) {
    && s.qbytes >= RESP_MSG_SIZE && i < |s.sessions|
    && var c := s.sessions[i];
    && !IsOutput(s.disk, c.path) && c.child.pc == ReadFile && c.child.path == c.path && c.child.rest == rest
    && c.queue == [] && c.client.queueExists && c.client.got == got
    && c.client.pc == (if got == [] then ReceiveFirst else ReceiveNext)
  }

  /** The child reads and sends one piece, and the client takes it. */
  lemma OnePiece(run: seq<State>, i: nat, got: seq<Message>, rest: seq<byte>, n: nat) returns (longer: seq<State>)
    requires IsRun(Faultless, run) && Midway(run[|run| - 1], i, got, rest)
    requires 1 <= n <= 8192 && n <= |rest|
    ensures IsRun(Faultless, longer) && longer[0] == run[0]
    ensures Midway(longer[|longer| - 1], i, got + [Message(DataMsg, rest[..n])], rest[n..])
  {
    longer := ReadAndSend(run, i, n);
    longer := TakeAndHandle(longer, i);
    longer := Go(longer, Local(i, ClientAct));
  }

  /** The client takes the message in its queue, writes it out and is about to test it. */
  lemma TakeAndHandle(run: seq<State>, i: nat) returns (longer: seq<State>)
    requires IsRun(Faultless, run) && i < |run[|run| - 1].sessions|
    requires
      var c := run[|run| - 1].sessions[i];
      && |c.queue| == 1 && c.queue[0].kind != FailureMsg && c.client.queueExists && Receives(c.client.pc)
    ensures IsRun(Faultless, longer) && longer[0] == run[0]
    ensures
      var s, t := run[|run| - 1], longer[|longer| - 1];
      && |t.sessions| == |s.sessions| && t.disk == s.disk && t.qbytes == s.qbytes
      && var c, d := s.sessions[i], t.sessions[i];
      && d.path == c.path && d.child == c.child && d.queue == [] && d.client.queueExists
      && d.client.pc == TestMore && d.client.got == c.client.got + c.queue && d.client.resp == c.queue[0]
  {
    longer := Go(run, Local(i, ClientAct));
    longer := Go(longer, Local(i, ClientAct));
    if run[|run| - 1].sessions[i].client.pc == ReceiveFirst {
      longer := Go(longer, Local(i, ClientAct));
    }
  }

  lemma {:induction false} AllPieces(run: seq<State>, i: nat, got: seq<Message>, pieces: seq<seq<byte>>)
    returns (longer: seq<State>)
    requires IsRun(Faultless, run) && Midway(run[|run| - 1], i, got, Flatten(pieces))
    requires forall k :: 0 <= k < |pieces| ==> 1 <= |pieces[k]| <= 8192
    ensures IsRun(Faultless, longer) && longer[0] == run[0]
    ensures Midway(longer[|longer| - 1], i, got + Chunks(pieces), [])
    decreases |pieces|
  {
    if pieces == [] {
      longer := run;
      assert got + Chunks(pieces) == got;
    } else {
      var more := pieces[1..];
      var n := |pieces[0]|;
      assert Flatten(pieces)[..n] == pieces[0] && Flatten(pieces)[n..] == Flatten(more);
      longer := OnePiece(run, i, got, Flatten(pieces), n);
      longer := AllPieces(longer, i, got + [Message(DataMsg, pieces[0])], more);
      assert got + Chunks(pieces) == got + [Message(DataMsg, pieces[0])] + Chunks(more);
    }
  }

  /** At the end of the file the child sends END, and the client reports. */
  lemma EndOfFile(run: seq<State>, i: nat, got: seq<Message>) returns (longer: seq<State>)
    requires IsRun(Faultless, run) && Midway(run[|run| - 1], i, got, [])
    ensures IsRun(Faultless, longer) && longer[0] == run[0]
    ensures
      var t := longer[|longer| - 1];
      && i < |t.sessions| && t.sessions[i].client.reported
      && t.sessions[i].client.got == got + [Message(EndMsg, [])]
  {
    longer := ReadAndSend(run, i, 0);
    longer := TakeAndHandle(longer, i);
    longer := Reports(longer, i);
  }

  lemma Reports(run: seq<State>, i: nat) returns (longer: seq<State>)
    requires IsRun(Faultless, run) && i < |run[|run| - 1].sessions|
    requires
      var c := run[|run| - 1].sessions[i].client;
      c.pc == TestMore && c.resp.kind == EndMsg
    ensures IsRun(Faultless, longer) && longer[0] == run[0]
    ensures
      var s, t := run[|run| - 1], longer[|longer| - 1];
      && i < |t.sessions| && t.sessions[i].client.reported && t.sessions[i].client.got == s.sessions[i].client.got
  {
    longer := Go(run, Local(i, ClientAct));
    longer := Go(longer, Local(i, ClientAct));
  }

  /** Whatever else is going on, an idle server serves client `i` its file in any cutting into pieces of 1 to 8192
      bytes: in some run without a failing call it takes exactly these pieces and one END, and reports. */
  lemma AnyCuttingIsServed(run: seq<State>, i: nat, pieces: seq<seq<byte>>) returns (longer: seq<State>)
    requires IsRun(Faultless, run) && CanBeServed(run[|run| - 1], i)
    requires
      var s := run[|run| - 1];
      IsFixed(s.disk, s.sessions[i].path) && Flatten(pieces) == s.disk[s.sessions[i].path].bytes
    requires forall k :: 0 <= k < |pieces| ==> 1 <= |pieces[k]| <= 8192
    ensures IsRun(Faultless, longer) && longer[0] == run[0]
    ensures
      var t := longer[|longer| - 1];
      && i < |t.sessions| && t.sessions[i].client.reported
      && t.sessions[i].client.got == Chunks(pieces) + [Message(EndMsg, [])]
  {
    longer := BringToChild(run, i);
    hide CanBeServed;
    assert [] + Chunks(pieces) == Chunks(pieces);
    longer := AllPieces(longer, i, [], pieces);
    longer := EndOfFile(longer, i, Chunks(pieces));
  }
}
