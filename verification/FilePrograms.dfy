/** The programs of `sysv_msg_server.c` and `sysv_msg_client.c`: server, children and clients as statements over
    variables. A call executes one statement of one process; a call that would block changes nothing and returns
    false. */
module FilePrograms {
  import opened Streams
  import opened Runs
  import opened Sums
  import opened FileSession
  import opened FileServer

  class FileService {
    const disk: Disk
    const qbytes: nat
    var requests: seq<Request>
    var server: ServerPc
    var sessions: seq<Session>
    var outputExists: bool
    var output: seq<byte>
    ghost var submitted: seq<nat>
    ghost var forked: seq<nat>
    ghost var trace: seq<FileOp>

    ghost function View(): State
      reads this
    {
      State(disk, qbytes, requests, server, sessions, outputExists, output, submitted, forked, trace)
    }

    ghost predicate Valid()
      reads this
    {
      Inv(View())
    }

    /** The server has created its queue; every client is about to start with its own argument. The output file may be
        left over from before. */
    constructor (disk: Disk, qbytes: nat, paths: seq<Path>, outputExists: bool, output: seq<byte>)
      requires qbytes >= RESP_MSG_SIZE && (!outputExists ==> output == [])
      ensures Valid() && Starting(View())
      ensures this.disk == disk && this.qbytes == qbytes && |sessions| == |paths|
      ensures this.outputExists == outputExists && this.output == output
      ensures forall i :: 0 <= i < |paths| ==> sessions[i].path == paths[i]
    {
      this.disk, this.qbytes, this.requests, this.server := disk, qbytes, [], Receiving;
      this.outputExists, this.output := outputExists, output;
      this.submitted, this.forked, this.trace := [], [], [];
      var noMessage := Message(EndMsg, []);
      this.sessions := seq(|paths|, i requires 0 <= i < |paths| =>
        Session(paths[i], Client(CheckPath, false, noMessage, 0, 0, false, [], []),
                Child(NotForked, [], [], [], [], false, []), []));
      new;
      StartInv(View());
    }

    /** The client's msgsnd to the server: blocks while the request queue is full. */
    method SubmitRequest(i: nat) returns (moved: bool)
      requires Valid() && i < |sessions| && sessions[i].client.pc == SendRequest
      modifies this
      ensures Valid()
      ensures moved <==> old(Enabled(View(), Submit(i)))
      ensures View() == if moved then old(Apply(View(), Submit(i))) else old(View())
    {
      hide Inv;
      ghost var before := View();
      moved := (|requests| + 1) * REQ_MSG_SIZE <= qbytes;
      if moved {
        requests, submitted := requests + [Request(i, sessions[i].path)], submitted + [i];
        sessions := sessions[i := sessions[i].(client := sessions[i].client.(pc := ReceiveFirst))];
        SubmitKeepsInv(before, i);
      }
    }

    /** The client's msgrcv from its private queue: blocks while the queue is empty. */
    method ReceiveReply(i: nat) returns (moved: bool)
      requires Valid() && i < |sessions| && Receives(sessions[i].client.pc)
      modifies this
      ensures Valid()
      ensures moved <==> old(Enabled(View(), Local(i, ClientAct)))
      ensures View() == if moved then old(Apply(View(), Local(i, ClientAct))) else old(View())
    {
      hide Inv;
      ghost var before := View();
      QueuePresent(before, i);
      var s := sessions[i];
      moved := s.queue != [];
      if moved {
        var m := s.queue[0];
        var next := if s.client.pc == ReceiveFirst then HandleFirst else HandleNext;
        sessions := sessions[i := s.(queue := s.queue[1..],
                                     client := s.client.(resp := m, got := s.client.got + [m], pc := next))];
        LocalKeepsInv(before, i, ClientAct);
      }
    }

    /** The client's use of the output file: open and truncate it, unless the file was refused, and write a message at
        its own offset. Never blocks. */
    method ClientWrites(i: nat)
      requires Valid() && i < |sessions| && sessions[i].client.pc in {HandleFirst, WriteFirst, HandleNext}
      modifies this
      ensures old(Enabled(View(), Local(i, ClientAct))) && View() == old(Apply(View(), Local(i, ClientAct)))
      ensures Valid()
    {
      hide Inv;
      LocalKeepsInv(View(), i, ClientAct);
      var c := sessions[i].client;
      if c.pc != HandleFirst {
        output, trace := WriteAt(output, |c.written|, c.resp.data), trace + [Write(i, |c.written|, c.resp.data)];
      }
      if c.pc == HandleFirst && c.resp.kind == FailureMsg {
        c := c.(pc := RemoveQueue);
      } else if c.pc == HandleFirst {
        outputExists, output, trace := true, [], trace + [Truncate(i)];
        c := c.(totBytes := |c.resp.data|, pc := WriteFirst);
      } else if c.pc == WriteFirst {
        c := c.(written := c.resp.data, numMsgs := 1, pc := TestMore);
      } else {
        c := c.(totBytes := c.totBytes + |c.resp.data|, written := c.written + c.resp.data,
                numMsgs := c.numMsgs + 1, pc := TestMore);
      }
      sessions := sessions[i := sessions[i].(client := c)];
    }

    /** The other statements of a client: the path check, the loop test, the report and the removal of its queue. None
        of them blocks. */
    method ClientStatement(i: nat)
      requires Valid() && i < |sessions| && sessions[i].client.pc in {CheckPath, TestMore, Report, RemoveQueue}
      modifies this
      ensures old(Enabled(View(), Local(i, ClientAct))) && View() == old(Apply(View(), Local(i, ClientAct)))
      ensures Valid()
    {
      hide Inv;
      LocalKeepsInv(View(), i, ClientAct);
      var s := sessions[i];
      var c := s.client;
      match c.pc {
        case CheckPath =>
          if |s.path| > PATH_MAX - 1 { c := c.(pc := Gone); } else { c := c.(queueExists := true, pc := SendRequest); }
        case TestMore =>
          c := c.(pc := if c.resp.kind == DataMsg then ReceiveNext else Report);
        case Report =>
          c := c.(reported := true, pc := RemoveQueue);
        case RemoveQueue =>
          c := c.(queueExists := false, pc := Gone);
          s := s.(queue := []);
      }
      sessions := sessions[i := s.(client := c)];
    }

    /** The server's msgrcv. */
    method ReceiveRequest() returns (moved: bool)
      requires Valid() && server == Receiving
      modifies this
      ensures Valid()
      ensures moved <==> old(Enabled(View(), ServerReceives))
      ensures View() == if moved then old(Apply(View(), ServerReceives)) else old(View())
    {
      ghost var before := View();
      moved := requests != [];
      if moved {
        server, requests := Forking(requests[0]), requests[1..];
        ReceiveKeepsInv(before);
      }
    }

    /** The server's fork: the child starts with a copy of the request. */
    method ForkChild()
      requires Valid() && server.Forking?
      modifies this
      ensures Valid() && old(Enabled(View(), ServerForks))
      ensures View() == old(Apply(View(), ServerForks))
    {
      ghost var before := View();
      ServerProgress(before);
      hide Inv;
      var r := server.request;
      var s := sessions[r.clientId];
      sessions := sessions[r.clientId := s.(child := s.child.(pc := OpenFile, path := r.path))];
      server, forked := Receiving, forked + [r.clientId];
      ForkKeepsInv(before);
    }

    /** The child opens its file, or reads the next `n` bytes of it. */
    method ChildStatement(i: nat, n: nat)
      requires Valid() && i < |sessions| && sessions[i].child.pc in {OpenFile, ReadFile}
      requires !IsOutput(disk, sessions[i].child.path)
      requires sessions[i].child.pc == ReadFile ==> MayRead(sessions[i].child.rest, RESP_MSG_SIZE, n)
      modifies this
      ensures Valid() && old(Enabled(View(), Local(i, ChildAct(n))))
      ensures View() == old(Apply(View(), Local(i, ChildAct(n))))
    {
      hide Inv;
      ghost var before := View();
      var c := sessions[i].child;
      if c.pc == OpenFile {
        if c.path in disk { c := c.(rest := disk[c.path].bytes, pc := ReadFile); } else { c := c.(pc := SendFailure); }
      } else if n > 0 {
        c := c.(held := c.rest[..n], rest := c.rest[n..], pc := SendData);
      } else {
        c := c.(pc := SendEnd);
      }
      sessions := sessions[i := sessions[i].(child := c)];
      LocalKeepsInv(before, i, ChildAct(n));
    }

    /** The child opens the output file, if it exists. */
    method ChildOpensOutput(i: nat)
      requires Valid() && i < |sessions| && sessions[i].child.pc == OpenFile
      requires IsOutput(disk, sessions[i].child.path)
      modifies this
      ensures Valid() && old(Enabled(View(), Local(i, OpensOutput(outputExists))))
      ensures View() == old(Apply(View(), Local(i, OpensOutput(outputExists))))
    {
      hide Inv;
      ghost var before := View();
      var next := if outputExists then ReadFile else SendFailure;
      sessions := sessions[i := sessions[i].(child := sessions[i].child.(pc := next))];
      LocalKeepsInv(before, i, OpensOutput(outputExists));
    }

    /** The child reads the next `n` bytes of the output file, as it is now; its offset may lie behind the end. */
    method ChildReadsOutput(i: nat, n: nat)
      requires Valid() && i < |sessions| && sessions[i].child.pc == ReadFile
      requires IsOutput(disk, sessions[i].child.path)
      requires MayRead(Tail(output, |sessions[i].child.taken|), RESP_MSG_SIZE, n)
      modifies this
      ensures
        var chunk := old(Tail(output, |sessions[i].child.taken|)[..n]);
        && old(Enabled(View(), Local(i, ReadsOutput(chunk))))
        && View() == old(Apply(View(), Local(i, ReadsOutput(chunk))))
      ensures Valid()
    {
      hide Inv;
      ghost var before := View();
      var c := sessions[i].child;
      var chunk := Tail(output, |c.taken|)[..n];
      if n > 0 {
        c := c.(held := chunk, taken := c.taken + chunk, pc := SendData);
      } else {
        c := c.(pc := SendEnd);
      }
      sessions := sessions[i := sessions[i].(child := c)];
      LocalKeepsInv(before, i, ReadsOutput(chunk));
    }

    /** The child's msgsnd: blocks while the private queue has no room. */
    method ChildSend(i: nat) returns (moved: bool)
      requires Valid() && i < |sessions| && Sends(sessions[i].child.pc)
      modifies this
      ensures Valid()
      ensures moved <==> old(Enabled(View(), Local(i, ChildAct(0))))
      ensures View() == if moved then old(Apply(View(), Local(i, ChildAct(0)))) else old(View())
    {
      hide Inv;
      ghost var before := View();
      QueuePresent(before, i);
      var s := sessions[i];
      var c := s.child;
      var m := Message(EndMsg, []);
      var next := Finished;
      if c.pc == SendFailure {
        m := Message(FailureMsg, FailureText(c.path));
      } else if c.pc == SendData {
        m, next := Message(DataMsg, c.held), ReadFile;
      }
      moved := |Payload(s.queue)| + |m.data| <= qbytes;
      if moved {
        sessions := sessions[i := s.(queue := s.queue + [m],
                                     child := c.(sent := c.sent + [m], held := [], pc := next))];
        LocalKeepsInv(before, i, ChildAct(0));
      }
    }

    /** A read of the file, or a send of a chunk, returns -1: the child goes on to END. */
    method ChildCallFails(i: nat)
      requires Valid() && i < |sessions| && sessions[i].child.pc in {ReadFile, SendData}
      modifies this
      ensures Valid()
      ensures View() == if old(sessions[i].child.pc) == ReadFile then old(Apply(View(), Local(i, ReadFails)))
                        else old(Apply(View(), Local(i, SendFails)))
    {
      hide Inv;
      ghost var before := View();
      var c := sessions[i].child;
      LocalKeepsInv(before, i, if c.pc == ReadFile then ReadFails else SendFails);
      if c.pc == SendData {
        c := c.(rest := c.held + c.rest, held := [], cut := true);
      } else {
        c := c.(cut := c.rest != []);
      }
      sessions := sessions[i := sessions[i].(child := c.(pc := SendEnd))];
    }

    /** The server's next statement. */
    method ServerGoesOn() returns (moved: bool)
      requires Valid()
      modifies this
      ensures moved <==> old(Enabled(View(), ServerStep(View())))
      ensures View() == if moved then old(Apply(View(), ServerStep(View()))) else old(View())
      ensures Valid()
    {
      hide Inv;
      if server == Receiving {
        moved := ReceiveRequest();
      } else {
        ForkChild();
        moved := true;
      }
    }

    /** Client `i` tries its next statement. */
    method ClientGoesOn(i: nat) returns (moved: bool)
      requires Valid() && i < |sessions|
      modifies this
      ensures moved <==> old(Enabled(View(), ClientStep(View(), i)))
      ensures View() == if moved then old(Apply(View(), ClientStep(View(), i))) else old(View())
      ensures Valid()
    {
      hide Inv, Do;
      moved := true;
      if Receives(sessions[i].client.pc) {
        moved := ReceiveReply(i);
      } else if sessions[i].client.pc == SendRequest {
        moved := SubmitRequest(i);
      } else if sessions[i].client.pc == Gone {
        moved := false;
      } else if sessions[i].client.pc in {HandleFirst, WriteFirst, HandleNext} {
        ClientWrites(i);
      } else {
        ClientStatement(i);
      }
    }

    /** The child of client `i` tries its next statement. */
    method ChildGoesOn(i: nat, pick: Pick) returns (moved: bool)
      requires Valid() && i < |sessions|
      modifies this
      ensures moved <==> old(Enabled(View(), ChildStep(View(), i, pick)))
      ensures View() == if moved then old(Apply(View(), ChildStep(View(), i, pick))) else old(View())
      ensures Valid()
    {
      hide Inv, Do;
      var c := sessions[i].child;
      moved := true;
      if pick.fails && c.pc in {ReadFile, SendData} {
        ChildCallFails(i);
      } else if Sends(c.pc) {
        moved := ChildSend(i);
      } else if c.pc in {OpenFile, ReadFile} && IsOutput(disk, c.path) {
        if c.pc == OpenFile {
          ChildOpensOutput(i);
        } else {
          ChildReadsOutput(i, Clip(Tail(output, |c.taken|), RESP_MSG_SIZE, pick.bytes));
        }
      } else if c.pc in {OpenFile, ReadFile} {
        ChildStatement(i, if c.pc == ReadFile then Clip(c.rest, RESP_MSG_SIZE, pick.bytes) else 0);
      } else {
        moved := false;
      }
    }

    /** A process tries its next statement. */
    method Turn(pick: Pick) returns (moved: bool)
      requires Valid()
      modifies this
      ensures moved <==> old(Enabled(View(), StepOf(View(), pick)))
      ensures View() == old(Attempt(View(), pick)) && (!moved ==> View() == old(View()))
      ensures Valid()
    {
      hide Inv, Enabled, Apply, ChildStep;
      var n := |sessions|;
      if pick.process < n {
        moved := ClientGoesOn(pick.process);
      } else if pick.process < 2 * n {
        moved := ChildGoesOn(pick.process - n, pick);
      } else {
        moved := ServerGoesOn();
      }
    }

    /** All programs under a schedule: first the picks in `turns`, and then all processes one after the other, without
        failing calls, until none can move; `picks` are all these attempts. It always ends with every client served; and
        if no pick lets a call fail, every client whose file can be opened and does not change holds all of it. */
    method RunToEnd(turns: seq<Pick>) returns (ghost picks: seq<Pick>)
      requires Valid() && Starting(View())
      modifies this
      ensures turns <= picks && View() == Replay(Attempt, old(View()), picks)
      ensures Valid() && AllDone(View()) && |sessions| == |old(sessions)|
      ensures forall i :: 0 <= i < |sessions| ==> sessions[i].path == old(sessions[i].path) && Served(disk, sessions[i])
      ensures NoneFails(turns) ==>
                forall i :: 0 <= i < |sessions| && Openable(View(), i) ==>
                  sessions[i].client.written == disk[sessions[i].path].bytes
    {
      hide Inv, Attempt, Enabled, Starting, Served, AllDone, NoneFails, Bounded;
      ghost var start := View();
      ghost var bound := SomeBound(start);
      picks := [];
      var moved: bool;
      for k := 0 to |turns|
        invariant Valid() && Bounded(View(), bound)
        invariant picks == turns[..k] && View() == Replay(Attempt, start, picks)
      {
        ReplayOneMore(Attempt, start, picks, turns[k]);
        TurnLowers(View(), turns[k], bound);
        moved := Turn(turns[k]);
        picks := picks + [turns[k]];
      }
      var blocked: nat := 0;
      NoPickFails();
      assert picks[|turns|..] == [];
      while blocked <= 2 * |sessions|
        invariant Valid() && Bounded(View(), bound)
        invariant turns <= picks && View() == Replay(Attempt, start, picks) && NoneFails(picks[|turns|..])
        invariant forall j: nat :: j < blocked ==> !Enabled(View(), StepOf(View(), Plain(j)))
        decreases Measure(bound, View()), 2 * |sessions| + 1 - blocked
      {
        ReplayOneMore(Attempt, start, picks, Plain(blocked));
        TurnLowers(View(), Plain(blocked), bound);
        NoneFailsMore(picks[|turns|..], Plain(blocked));
        moved := Turn(Plain(blocked));
        assert (picks + [Plain(blocked)])[|turns|..] == picks[|turns|..] + [Plain(blocked)];
        picks := picks + [Plain(blocked)];
        blocked := if moved then 0 else blocked + 1;
      }
      AllBlocked(View());
      EndIsServed(start, picks);
      NoneFailsAtAll(turns, picks);
    }
  }

  /** A client that receives has its queue, and so has a child that sends: the queue is removed only afterwards. */
  lemma QueuePresent(s: State, i: nat)
    requires Inv(s) && i < |s.sessions|
    ensures Receives(s.sessions[i].client.pc) || Sends(s.sessions[i].child.pc) ==> s.sessions[i].client.queueExists
  {
    SessionIsOk(s, i);
    hide Inv;
    SessionHasQueue(s.disk, s.sessions[i]);
  }

  /** Which process is tried next, how many bytes a read returns at most, and whether a read or send of a chunk fails.
      Clients come first, then children, then the server. */
  datatype Pick = Pick(process: nat, bytes: nat, fails: bool)

  function ServerStep(s: State): Event {
    if s.server == Receiving then ServerReceives else ServerForks
  }

  function ClientStep(s: State, i: nat): Event
    requires i < |s.sessions|
  {
    if s.sessions[i].client.pc == SendRequest then Submit(i) else Local(i, ClientAct)
  }

  function ChildStep(s: State, i: nat, pick: Pick): Event
    requires i < |s.sessions|
  {
    var c := s.sessions[i].child;
    var tail := Tail(s.output, |c.taken|);
    Local(i, if pick.fails && c.pc == ReadFile then ReadFails
             else if pick.fails && c.pc == SendData then SendFails
             else if c.pc == OpenFile && IsOutput(s.disk, c.path) then OpensOutput(s.outputExists)
             else if c.pc == ReadFile && IsOutput(s.disk, c.path) then
               ReadsOutput(tail[..Clip(tail, RESP_MSG_SIZE, pick.bytes)])
             else ChildAct(if c.pc == ReadFile then Clip(c.rest, RESP_MSG_SIZE, pick.bytes) else 0))
  }

  function StepOf(s: State, pick: Pick): Event {
    var n := |s.sessions|;
    if pick.process < n then ClientStep(s, pick.process)
    else if pick.process < 2 * n then ChildStep(s, pick.process - n, pick)
    else ServerStep(s)
  }

  function Attempt(s: State, pick: Pick): State {
    if Enabled(s, StepOf(s, pick)) then Apply(s, StepOf(s, pick)) else s
  }

  /** A pick of process `j` in which no call fails. */
  function Plain(j: nat): Pick {
    Pick(j, 1, false)
  }

  predicate NoneFails(picks: seq<Pick>) {
    forall k :: 0 <= k < |picks| ==> !picks[k].fails
  }

  lemma NoPickFails()
    ensures NoneFails([])
  {
  }

  lemma NoneFailsMore(picks: seq<Pick>, pick: Pick)
    requires NoneFails(picks) && !pick.fails
    ensures NoneFails(picks + [pick])
  {
  }

  lemma NoneFailsAtAll(turns: seq<Pick>, picks: seq<Pick>)
    requires turns <= picks && NoneFails(picks[|turns|..])
    ensures NoneFails(turns) ==> NoneFails(picks)
  {
    assert picks == turns + picks[|turns|..];
  }

  /** The sizes of all files together bound each of them. */
  lemma SomeBound(start: State) returns (bound: nat)
    requires Starting(start)
    ensures Bounded(start, bound)
  {
    var size := (s: Session) => |Source(start.disk, s.path, s.child)|;
    bound := |start.output| + Sum(size, start.sessions);
    forall i | 0 <= i < |start.sessions|
      ensures |Source(start.disk, start.sessions[i].path, start.sessions[i].child)| <= bound
    {
      SumUpdate(size, start.sessions, i, start.sessions[i]);
    }
  }

  lemma TurnLowers(s: State, pick: Pick, bound: nat)
    requires Inv(s) && Bounded(s, bound)
    ensures Bounded(Attempt(s, pick), bound)
    ensures Enabled(s, StepOf(s, pick)) ==> Measure(bound, Attempt(s, pick)) < Measure(bound, s)
  {
    hide Inv, Enabled, Apply, Measure, StepOf, Bounded;
    if Enabled(s, StepOf(s, pick)) {
      assert Next(s, Attempt(s, pick));
      StepLowersMeasure(s, Attempt(s, pick), bound);
      StepKeepsBounded(s, Attempt(s, pick), bound);
    }
  }

  /** When every process is blocked, only a failing call could go on. */
  lemma AllBlocked(s: State)
    requires forall j: nat :: j <= 2 * |s.sessions| ==> !Enabled(s, StepOf(s, Plain(j)))
    ensures Idle(s)
  {
    forall e | !Fails(e)
      ensures !Enabled(s, e)
    {
      match e
      case Local(i, action) =>
        if i < |s.sessions| {
          assert !Enabled(s, StepOf(s, Plain(i))) && !Enabled(s, StepOf(s, Plain(|s.sessions| + i)));
          SessionBlocked(s, i, action);
        }
      case Submit(i) =>
        if i < |s.sessions| {
          assert !Enabled(s, StepOf(s, Plain(i)));
        }
      case ServerReceives => assert !Enabled(s, StepOf(s, Plain(2 * |s.sessions|)));
      case ServerForks => assert !Enabled(s, StepOf(s, Plain(2 * |s.sessions|)));
    }
  }

  lemma SessionBlocked(s: State, i: nat, action: Action)
    requires i < |s.sessions| && !Fails(Local(i, action))
    requires !Enabled(s, ClientStep(s, i)) && !Enabled(s, ChildStep(s, i, Plain(|s.sessions| + i)))
    ensures !Enabled(s, Local(i, action))
  {
    hide Payload;
  }

  /** The attempts make a run, about which the theorems speak. */
  lemma EndIsServed(start: State, picks: seq<Pick>)
    requires Starting(start) && Idle(Replay(Attempt, start, picks))
    ensures
      var last := Replay(Attempt, start, picks);
      && AllDone(last) && |last.sessions| == |start.sessions| && last.disk == start.disk
      && (forall i :: 0 <= i < |last.sessions| ==>
            last.sessions[i].path == start.sessions[i].path && Served(start.disk, last.sessions[i]))
    ensures
      var last := Replay(Attempt, start, picks);
      NoneFails(picks) ==> forall i :: 0 <= i < |last.sessions| && Openable(last, i) ==>
        last.sessions[i].client.written == last.disk[last.sessions[i].path].bytes
  {
    var run := RunOf(start, picks);
    hide Next, Starting, Idle, AllDone, Served, Attempt;
    RunKeepsInv(run);
    var last := run[|run| - 1];
    IdleMeansDone(last);
    forall i | 0 <= i < |start.sessions|
      ensures last.sessions[i].path == start.sessions[i].path && Served(start.disk, last.sessions[i])
    {
      CompleteRunServesAll(run, i);
    }
    if NoneFails(picks) {
      PlainPicksUncut(start, picks);
      UncutIsWhole(last);
    }
  }

  lemma RunOf(start: State, picks: seq<Pick>) returns (run: seq<State>)
    ensures IsRun(Next, run) && run[0] == start && run[|run| - 1] == Replay(Attempt, start, picks)
  {
    hide Enabled, Apply, StepOf;
    forall s: State, pick: Pick
      ensures Attempt(s, pick) == s || Next(s, Attempt(s, pick))
    {
    }
    hide Next, Attempt;
    run := ReplayIsRun(Next, Attempt, start, picks);
  }

  lemma {:induction false} PlainPicksUncut(start: State, picks: seq<Pick>)
    requires Starting(start) && NoneFails(picks)
    ensures Uncut(Replay(Attempt, start, picks))
  {
    hide Attempt;
    if picks == [] {
    } else {
      var before := picks[..|picks| - 1];
      PlainPicksUncut(start, before);
      PlainKeepsUncut(Replay(Attempt, start, before), picks[|picks| - 1]);
    }
  }

  lemma PlainKeepsUncut(s: State, pick: Pick)
    requires Uncut(s) && !pick.fails
    ensures Uncut(Attempt(s, pick))
  {
    hide Enabled, Apply, Uncut;
    if Enabled(s, StepOf(s, pick)) {
      assert !Fails(StepOf(s, pick));
      hide StepOf;
      assert Faultless(s, Attempt(s, pick));
      FaultlessKeepsUncut(s, Attempt(s, pick));
    }
  }

  lemma UncutIsWhole(s: State)
    requires forall i :: 0 <= i < |s.sessions| ==> Served(s.disk, s.sessions[i])
    ensures Uncut(s) ==> forall i :: 0 <= i < |s.sessions| && Openable(s, i) ==>
      s.sessions[i].client.written == s.disk[s.sessions[i].path].bytes
  {
  }
}
