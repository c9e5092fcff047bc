/** The programs of `pipe_server.c` and `pipe_client.c` as statements over variables. A call executes one statement of
    one process; a call that would block changes nothing and returns false. */
module SeqPrograms {
  import opened Runs
  import opened SeqRanges
  import opened SeqServer

  class SequenceService {
    const capacity: nat
    var server: ServerPc
    var req: Request
    var seqNum: nat
    var serverReads: bool
    var writerSeen: bool
    var dummy: bool
    var eofs: nat
    var failed: nat
    var requests: seq<Request>
    ghost var written: seq<nat>
    ghost var granted: seq<Grant>
    var clients: seq<Client>

    ghost function View(): State
      reads this
    {
      State(capacity, server, req, seqNum, serverReads, writerSeen, dummy, eofs, failed, requests, written, granted,
            clients)
    }

    ghost predicate Valid()
      reads this
    {
      Inv(View())
    }

    /** The request FIFO has been made; every client is about to start with its own length. */
    constructor (capacity: nat, lengths: seq<nat>)
      requires capacity >= 1
      ensures Valid() && Starting(View())
      ensures |clients| == |lengths| && forall i :: 0 <= i < |lengths| ==> clients[i].seqLen == lengths[i]
    {
      this.capacity, this.server, this.req, this.seqNum := capacity, OpenRead, Request(0, 0), 0;
      this.serverReads, this.writerSeen, this.dummy, this.eofs, this.failed := false, false, false, 0, 0;
      this.requests, this.written, this.granted := [], [], [];
      this.clients := seq(|lengths|, i requires 0 <= i < |lengths| =>
        Client(MakeFifo, lengths[i], false, false, false, false, [], [], false));
      new;
      StartInv(View());
    }

    /** The server's two opens of the request FIFO: for reading, which waits for a first client, and for writing. */
    method ServerOpens() returns (moved: bool)
      requires Valid() && StartingUp(View())
      modifies this
      ensures Valid()
      ensures moved <==> old(Enabled(View(), ServerStep))
      ensures View() == if moved then old(Apply(View(), ServerStep)) else old(View())
    {
      hide Inv;
      ghost var before := View();
      moved := true;
      match server {
        case OpenRead =>
          serverReads, server := true, OpenReadBlocked;
        case OpenReadBlocked =>
          if writerSeen { server := OpenDummy; } else { moved := false; }
        case OpenDummy =>
          dummy, server := true, ReadRequest;
      }
      if moved {
        ServerKeepsInv(before);
      }
    }

    /** The server's read: takes a request, or blocks; it never meets the end of the FIFO. */
    method ServerReads() returns (moved: bool)
      requires Valid() && server == ReadRequest
      modifies this
      ensures Valid()
      ensures moved <==> old(Enabled(View(), ServerStep))
      ensures View() == if moved then old(Apply(View(), ServerStep)) else old(View())
      ensures moved <==> old(requests) != []
    {
      ghost var before := View();
      hide Inv;
      InvMeansNoEof(before);
      moved := requests != [];
      if moved {
        req, requests := requests[0], requests[1..];
        granted := granted + [Grant(req.pid, seqNum, req.seqLen)];
        server := OpenReply;
        ServerKeepsInv(before);
      }
    }

    /** The server enters the open of the reply FIFO; it exists. */
    method ServerOpensReply()
      requires Valid() && server == OpenReply
      modifies this
      ensures Valid() && View() == old(Apply(View(), ServerStep)) && failed == 0
    {
      ghost var before := View();
      InvMeansNothingLost(before);
      assert Outstanding(before)[0] == req;
      hide Inv;
      clients := clients[req.pid := clients[req.pid].(writer := true, writeEnd := true)];
      server := OpenReplyBlocked;
      ServerKeepsInv(before);
    }

    /** The open returns when the client has entered its own. */
    method ServerMeetsClient() returns (moved: bool)
      requires Valid() && server == OpenReplyBlocked
      modifies this
      ensures Valid()
      ensures moved <==> old(Enabled(View(), ServerStep))
      ensures View() == if moved then old(Apply(View(), ServerStep)) else old(View())
    {
      ghost var before := View();
      hide Inv;
      InvMeansNoEof(before);
      moved := clients[req.pid].reader;
      if moved {
        server := WriteReply;
        ServerKeepsInv(before);
      }
    }

    /** Writes the reply and closes the reply FIFO, then counts the request's numbers as used: three statements. */
    method ServerReplies()
      requires Valid() && server in {WriteReply, CloseReply, Advance}
      modifies this
      ensures Valid()
      ensures old(Enabled(View(), ServerStep)) && View() == old(Apply(View(), ServerStep))
    {
      ghost var before := View();
      hide Inv, WriteEndOpen;
      InvMeansNoEof(before);
      match server {
        case WriteReply =>
          clients := clients[req.pid := clients[req.pid].(box := clients[req.pid].box + [seqNum])];
          server := CloseReply;
          ServerKeepsInv(before);
        case CloseReply =>
          clients := clients[req.pid := clients[req.pid].(writeEnd := false)];
          server := Advance;
          ServerKeepsInv(before);
        case Advance =>
          seqNum, server := seqNum + req.seqLen, ReadRequest;
          ServerKeepsInv(before);
      }
    }

    /** The client's write of its request: blocks while the FIFO is full. */
    method ClientWritesRequest(i: nat) returns (moved: bool)
      requires Valid() && i < |clients| && clients[i].pc == WriteRequest
      modifies this
      ensures Valid()
      ensures moved <==> old(Enabled(View(), ClientStep(i)))
      ensures View() == if moved then old(Apply(View(), ClientStep(i))) else old(View())
    {
      hide Inv;
      ghost var before := View();
      moved := |requests| < capacity;
      if moved {
        requests, written := requests + [Request(i, clients[i].seqLen)], written + [i];
        clients := clients[i := clients[i].(pc := OpenOwn)];
        ClientKeepsInv(before, i);
      }
    }

    /** Any other statement of a client. */
    method ClientStatement(i: nat) returns (moved: bool)
      requires Valid() && i < |clients| && clients[i].pc != WriteRequest
      modifies this
      ensures Valid()
      ensures moved <==> old(Enabled(View(), ClientStep(i)))
      ensures View() == if moved then old(Apply(View(), ClientStep(i))) else old(View())
    {
      hide Inv;
      ghost var before := View();
      var c := clients[i];
      moved := true;
      match c.pc {
        case MakeFifo => c := c.(fifo := true, pc := OpenServer);
        case OpenServer =>
          c := c.(pc := OpenServerBlocked);
          writerSeen := true;
        case OpenServerBlocked => moved, c := serverReads, c.(pc := WriteRequest);
        case OpenOwn => c := c.(reader := true, pc := OpenOwnBlocked);
        case OpenOwnBlocked => moved, c := c.writer, c.(pc := ReadReply);
        case ReadReply =>
          if c.box != [] {
            c := c.(got := [c.box[0]], box := c.box[1..], pc := RemoveFifo);
          } else {
            moved := !c.writeEnd;
            c := c.(pc := RemoveFifo);
          }
        case RemoveFifo => c := c.(fifo := false, pc := Gone);
        case Gone => moved := false;
      }
      if moved {
        clients := clients[i := c];
        ClientKeepsInv(before, i);
      }
    }

    /** The server's next statement, whatever it is. */
    method ServerGoesOn() returns (moved: bool)
      requires Valid()
      modifies this
      ensures moved <==> old(Enabled(View(), ServerStep))
      ensures View() == if moved then old(Apply(View(), ServerStep)) else old(View())
      ensures Valid()
    {
      hide Inv, Apply, WriteEndOpen;
      moved := true;
      match server {
        case ReadRequest => moved := ServerReads();
        case OpenReply => ServerOpensReply();
        case OpenReplyBlocked => moved := ServerMeetsClient();
        case WriteReply => ServerReplies();
        case CloseReply => ServerReplies();
        case Advance => ServerReplies();
        case _ => moved := ServerOpens();
      }
    }

    /** Process `j` tries its next statement: the client of that number, or the server. */
    method Turn(j: nat) returns (moved: bool)
      requires Valid()
      modifies this
      ensures moved <==> old(Enabled(View(), StepOf(View(), j)))
      ensures View() == old(Attempt(View(), j)) && (!moved ==> View() == old(View()))
      ensures Valid()
    {
      hide Inv, ServerApply, ClientApply, ServerEnabled, ClientEnabled;
      if j >= |clients| {
        moved := ServerGoesOn();
      } else if clients[j].pc == WriteRequest {
        moved := ClientWritesRequest(j);
      } else {
        moved := ClientStatement(j);
      }
    }

    /** All programs under a schedule: the processes named in `turns` are tried in that order, and then all of them one
        after the other until none can move; `picks` are all these attempts. It always ends, with every client
        answered. */
    method RunToEnd(turns: seq<nat>) returns (ghost picks: seq<nat>)
      requires Valid() && Starting(View())
      modifies this
      ensures turns <= picks && View() == Replay(Attempt, old(View()), picks)
      ensures Valid() && Stuck(View()) && AllAnswered(old(View()), View())
    {
      hide Inv, Attempt, Enabled, Starting, AllAnswered;
      ghost var start := View();
      picks := [];
      var moved: bool;
      for k := 0 to |turns|
        invariant Valid() && picks == turns[..k] && View() == Replay(Attempt, start, picks)
      {
        ReplayOneMore(Attempt, start, picks, turns[k]);
        moved := Turn(turns[k]);
        picks := picks + [turns[k]];
      }
      var blocked: nat := 0;
      while blocked <= |clients|
        invariant Valid() && turns <= picks && View() == Replay(Attempt, start, picks)
        invariant forall j: nat :: j < blocked ==> !Enabled(View(), StepOf(View(), j))
        decreases Measure(View()), |clients| + 1 - blocked
      {
        ReplayOneMore(Attempt, start, picks, blocked);
        TurnLowers(View(), blocked);
        moved := Turn(blocked);
        picks := picks + [blocked];
        blocked := if moved then 0 else blocked + 1;
      }
      AllBlocked(View());
      EndIsAnswered(start, picks);
    }
  }

  /** The next statement of process `j`. */
  function StepOf(s: State, j: nat): Event {
    if j < |s.clients| then ClientStep(j) else ServerStep
  }

  function Attempt(s: State, j: nat): State {
    if Enabled(s, StepOf(s, j)) then Apply(s, StepOf(s, j)) else s
  }

  lemma TurnLowers(s: State, j: nat)
    requires Inv(s)
    ensures Enabled(s, StepOf(s, j)) ==> Measure(Attempt(s, j)) < Measure(s)
  {
    hide Inv, Enabled, Apply, Measure;
    if Enabled(s, StepOf(s, j)) {
      assert Next(s, Attempt(s, j));
      StepLowersMeasure(s, Attempt(s, j));
    }
  }

  lemma AllBlocked(s: State)
    requires forall j: nat :: j <= |s.clients| ==> !Enabled(s, StepOf(s, j))
    ensures Stuck(s)
  {
    hide ServerEnabled;
    forall e: Event
      ensures !Enabled(s, e)
    {
      match e
      case ClientStep(i) => assert !Enabled(s, StepOf(s, if i < |s.clients| then i else 0));
      case ServerStep => assert !Enabled(s, StepOf(s, |s.clients|));
    }
  }

  /** The attempts make a run, about which the theorem speaks. */
  lemma EndIsAnswered(start: State, picks: seq<nat>)
    requires Starting(start) && Stuck(Replay(Attempt, start, picks))
    ensures AllAnswered(start, Replay(Attempt, start, picks))
  {
    hide Enabled, Apply, Starting, Stuck, AllAnswered;
    forall s: State, j: nat
      ensures Attempt(s, j) == s || Next(s, Attempt(s, j))
    {
    }
    hide Next, Attempt;
    var run := ReplayIsRun(Next, Attempt, start, picks);
    CompleteRunAnswersAll(run);
  }
}
