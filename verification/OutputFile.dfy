/** The one output file: every client of the file service opens, truncates and writes it, and a client may even ask for
    it. When does it hold what a client has written, and what becomes of a client that asks for it? */
module OutputFile {
  import opened Streams
  import opened Runs
  import opened FileSession
  import opened FileServer

  /** At most one client has the output file open. */
  predicate NoOverlap(s: State) {
    forall i, j :: 0 <= i < j < |s.sessions| ==> !FileOpen(s.sessions[i].client) || !FileOpen(s.sessions[j].client)
  }

  /** The output file holds what each client that has it open has written. */
  predicate OutputOk(s: State) {
    forall i :: 0 <= i < |s.sessions| && FileOpen(s.sessions[i].client) ==> s.output == s.sessions[i].client.written
  }

  lemma StepKeepsOutput(s: State, t: State)
    requires Inv(s) && OutputOk(s) && Next(s, t) && NoOverlap(t)
    ensures OutputOk(t)
  {
    hide SessionOk, CanAct, FindsOutput, Do, OutputAfter, RequestsOk, AwaitedOk;
    var e :| Enabled(s, e) && t == Apply(s, e);
    if e.Local? {
      OutputFollows(s.disk, s.qbytes, s.sessions[e.i], e.action, s.output);
      forall j | 0 <= j < |t.sessions| && j != e.i && FileOpen(t.sessions[j].client)
        ensures t.output == t.sessions[j].client.written
      {
        assert t.sessions[j] == s.sessions[j];
        assert !FileOpen(t.sessions[e.i].client);
      }
    }
  }

  /** As long as no two clients ever have the output file open together, it always holds what the client that has it
      open has written. */
  lemma {:induction false} OutputIsRight(run: seq<State>)
    requires IsRun(Next, run) && Starting(run[0]) && forall k :: 0 <= k < |run| ==> NoOverlap(run[k])
    ensures forall k :: 0 <= k < |run| ==> OutputOk(run[k])
  {
    hide Next, Inv;
    if |run| == 1 {
    } else {
      var before := run[..|run| - 1];
      OutputIsRight(before);
      RunKeepsInv(before);
      assert Next(run[|run| - 2], run[|run| - 2 + 1]);
      StepKeepsOutput(before[|run| - 2], run[|run| - 1]);
    }
  }

  /** So a client about to report finds its whole file in the output file exactly when no call failed at the cost of
      bytes; if it asked for the output file itself, it finds what its child read of it. */
  lemma OutputIsTheFile(run: seq<State>, k: nat, i: nat)
    requires IsRun(Next, run) && Starting(run[0]) && forall l :: 0 <= l < |run| ==> NoOverlap(run[l])
    requires k < |run| && i < |run[k].sessions| && run[k].sessions[i].client.pc == Report
    ensures run[k].sessions[i].path in run[0].disk
    ensures run[k].output == Source(run[0].disk, run[k].sessions[i].path, run[k].sessions[i].child)
       <==> !run[k].sessions[i].child.cut
  {
    hide Next, SessionOk, Starting;
    OutputIsRight(run);
    RunKeepsInv(run);
    ReportMeansWhole(run[0].disk, run[k].sessions[i]);
  }

  // ---------------------------------------------------------------------------------------------
  // Who may open the output file

  /** The output file exists, or a client whose file can be opened will create it. */
  ghost predicate MayExist(start: State) {
    start.outputExists || exists k :: 0 <= k < |start.sessions| && Openable(start, k)
  }

  /** A client that some run lets into the output file: its own file can be opened, or it asks for the output file and
      that may exist. */
  ghost predicate MayOpen(start: State, i: nat)
    requires i < |start.sessions|
  {
    var path := start.sessions[i].path;
    |path| <= PATH_MAX - 1 && (IsFixed(start.disk, path) || (IsOutput(start.disk, path) && MayExist(start)))
  }

  /** What is in the file that client `i` asks for. */
  function Contents(s: State, i: nat): seq<byte>
    requires i < |s.sessions|
  {
    if IsFixed(s.disk, s.sessions[i].path) then s.disk[s.sessions[i].path].bytes else s.output
  }

  /** No two clients may open the output file, unless what they ask for is empty. */
  ghost predicate Harmless(start: State) {
    forall i, j :: 0 <= i < |start.sessions| && 0 <= j < |start.sessions| && i != j ==>
      MayOpen(start, i) && MayOpen(start, j) ==> Contents(start, i) == []
  }

  /** The child has opened its file. */
  predicate HasOpened(c: Child) {
    c.pc in {ReadFile, SendData, SendEnd} || (c.pc == Finished && !Refused(c))
  }

  /** The output file, and a child that has opened it, exist only if they may. */
  ghost predicate Justified(start: State, s: State) {
    && SameWorld(start, s)
    && (s.outputExists ==> MayExist(start))
    && forall i :: 0 <= i < |s.sessions| && HasOpened(s.sessions[i].child) ==> MayOpen(start, i)
  }

  lemma LocalJustified(disk: Disk, qbytes: nat, s: Session, a: Action)
    requires SessionOk(disk, s) && CanAct(disk, qbytes, s, a) && HasOpened(Do(disk, qbytes, s, a).child)
    ensures |s.path| <= PATH_MAX - 1 && s.path in disk
    ensures HasOpened(s.child) || IsFixed(disk, s.path) || (a.OpensOutput? && a.found)
  {
    hide ClientOk, ChildOk, ClientLocal, Payload, Room;
    assert s.child.pc != NotForked;
    ForkedPathFits(disk, s);
    OpenedNow(disk, qbytes, s, a);
  }

  lemma OpenedNow(disk: Disk, qbytes: nat, s: Session, a: Action)
    requires ChildOk(disk, s.path, s.child) && CanAct(disk, qbytes, s, a) && HasOpened(Do(disk, qbytes, s, a).child)
    ensures s.path in disk
    ensures HasOpened(s.child) || IsFixed(disk, s.path) || (a.OpensOutput? && a.found)
  {
    hide Payload, Room, Source, ClientLocal, ChunksBefore, WholeTransfer;
  }

  lemma CreatorHasOpened(disk: Disk, s: Session)
    requires SessionOk(disk, s) && Creates(s.client, ClientAct)
    ensures HasOpened(s.child)
  {
    hide Payload, Source;
    assert s.child.sent[0] == s.client.got[0];
  }

  lemma ForkedPathFits(disk: Disk, s: Session)
    requires SessionOk(disk, s) && s.child.pc != NotForked
    ensures |s.path| <= PATH_MAX - 1
  {
    hide ChildOk, Recorded, Ended;
  }

  /** The output file is created, and a child opens its file, only if that may happen. */
  lemma StepKeepsJustified(start: State, s: State, t: State)
    requires Inv(s) && Justified(start, s) && Next(s, t)
    ensures Justified(start, t)
  {
    StepKeepsWorld(s, t);
    hide Inv, SameWorld, CanAct, Do;
    assert SameWorld(start, t) by {
      WorldIsKept(start, s, t);
    }
    var e :| Enabled(s, e) && t == Apply(s, e);
    if e.Local? {
      LocalKeepsJustified(start, s, e.i, e.action);
    }
  }

  lemma WorldIsKept(a: State, b: State, c: State)
    requires SameWorld(a, b) && SameWorld(b, c)
    ensures SameWorld(a, c)
  {
  }

  lemma LocalKeepsJustified(start: State, s: State, i: nat, a: Action)
    requires Inv(s) && Justified(start, s) && Enabled(s, Local(i, a))
    ensures
      var t := Apply(s, Local(i, a));
      && (t.outputExists ==> MayExist(start))
      && (HasOpened(t.sessions[i].child) ==> MayOpen(start, i))
  {
    SessionIsOk(s, i);
    if Creates(s.sessions[i].client, a) {
      CreatorHasOpened(s.disk, s.sessions[i]);
    }
    if HasOpened(Do(s.disk, s.qbytes, s.sessions[i], a).child) {
      LocalJustified(s.disk, s.qbytes, s.sessions[i], a);
    }
    hide Inv, SessionOk, CanAct, Do, HasOpened, MayExist;
    assert s.sessions[i].path == start.sessions[i].path && s.disk == start.disk;
    if HasOpened(s.sessions[i].child) {
      MayOpenMeansMayExist(start, i);
    }
  }

  lemma MayOpenMeansMayExist(start: State, i: nat)
    requires i < |start.sessions| && MayOpen(start, i)
    ensures MayExist(start)
  {
    assert IsFixed(start.disk, start.sessions[i].path) ==> Openable(start, i);
  }

  lemma StartJustified(start: State)
    requires Starting(start)
    ensures Justified(start, start) && OutputOk(start)
  {
  }

  /** Whoever has the output file open has a child that has opened its own. */
  lemma InsideMeansOpened(disk: Disk, s: Session)
    requires SessionOk(disk, s) && FileOpen(s.client)
    ensures HasOpened(s.child)
  {
    assert s.child.sent[0] == s.client.got[0];
    hide Payload, Source;
  }

  lemma RunIsJustified(run: seq<State>)
    requires IsRun(Next, run) && Starting(run[0])
    ensures forall k :: 0 <= k < |run| ==> Inv(run[k]) && Justified(run[0], run[k])
  {
    hide Inv, Next, Justified, Starting;
    var start := run[0];
    var inv := (s: State) => Inv(s) && Justified(start, s);
    forall s, t | inv(s) && Next(s, t)
      ensures inv(t)
    {
      StepKeepsInv(s, t);
      StepKeepsJustified(start, s, t);
    }
    StartInv(start);
    StartJustified(start);
    InvariantHolds(Next, inv, run);
    assert forall k :: 0 <= k < |run| ==> inv(run[k]);
  }

  lemma InsideMeansMayOpen(start: State, s: State, i: nat)
    requires Inv(s) && Justified(start, s) && i < |s.sessions| && FileOpen(s.sessions[i].client)
    ensures i < |start.sessions| && MayOpen(start, i)
  {
    SessionIsOk(s, i);
    InsideMeansOpened(s.disk, s.sessions[i]);
    hide Inv;
  }

  // ---------------------------------------------------------------------------------------------
  // Nothing but empty files

  /** Everybody who may open the output file asks for something empty. */
  ghost predicate NothingToWrite(start: State) {
    forall i :: 0 <= i < |start.sessions| && MayOpen(start, i) ==> Contents(start, i) == []
  }

  ghost predicate SomebodyAsksForOutput(start: State) {
    exists i :: 0 <= i < |start.sessions| && MayOpen(start, i) && IsOutput(start.disk, start.sessions[i].path)
  }

  /** Then nothing is ever read of the output file, and it is empty whenever it matters. */
  ghost predicate Hollow(start: State, s: State) {
    && (forall i :: 0 <= i < |s.sessions| ==> s.sessions[i].child.taken == [])
    && (forall i :: 0 <= i < |s.sessions| && FileOpen(s.sessions[i].client) ==> s.output == [])
    && (SomebodyAsksForOutput(start) ==> s.output == [])
  }

  /** A client that has the output file open has written nothing and has nothing to write. */
  lemma HollowMeansUnwritten(start: State, s: State, i: nat)
    requires NothingToWrite(start) && Inv(s) && Justified(start, s) && Hollow(start, s)
    requires i < |s.sessions| && HasOpened(s.sessions[i].child)
    ensures s.sessions[i].client.written == Pending(s.sessions[i].client) == []
  {
    var c := s.sessions[i];
    SessionIsOk(s, i);
    hide Inv;
    OkMeansConserved(s.disk, c);
    OpenedIsNotRefused(s.disk, c);
    assert MayOpen(start, i) && Contents(start, i) == [];
    assert Source(s.disk, c.path, c.child) == [];
    hide Payload, SessionOk, Unsent, Pending, Hollow, Justified, NothingToWrite;
    assert c.client.written + Pending(c.client) + Payload(c.queue) + c.child.held + Unsent(s.disk, c) == [];
  }

  lemma OpenedIsNotRefused(disk: Disk, s: Session)
    requires SessionOk(disk, s) && HasOpened(s.child)
    ensures s.path in disk && !Refused(s.child)
  {
    hide ClientOk, Payload;
  }

  lemma HollowMeansOk(start: State, s: State)
    requires NothingToWrite(start) && Inv(s) && Justified(start, s) && Hollow(start, s)
    ensures OutputOk(s)
  {
    forall i | 0 <= i < |s.sessions| && FileOpen(s.sessions[i].client)
      ensures s.output == s.sessions[i].client.written
    {
      SessionIsOk(s, i);
      InsideMeansOpened(s.disk, s.sessions[i]);
      HollowMeansUnwritten(start, s, i);
    }
  }

  /** A client with nothing in hand changes the output file only by creating or truncating it. */
  lemma EmptyHanded(disk: Disk, qbytes: nat, s: Session, a: Action, file: seq<byte>)
    requires CanAct(disk, qbytes, s, a) && (FileOpen(s.client) ==> Pending(s.client) == [])
    ensures OutputAfter(file, s.client, a) == if Creates(s.client, a) then [] else file
    ensures FileOpen(Do(disk, qbytes, s, a).client) ==> FileOpen(s.client) || Creates(s.client, a)
  {
    hide ChildLocal, Sent, TakeChunk, Room;
  }

  lemma TakenOnlyByReading(disk: Disk, qbytes: nat, s: Session, a: Action)
    requires CanAct(disk, qbytes, s, a) && s.child.taken == [] && (a.ReadsOutput? ==> a.chunk == [])
    ensures Do(disk, qbytes, s, a).child.taken == []
  {
    hide ClientLocal, Receive, Room;
  }

  lemma StepKeepsHollow(start: State, s: State, t: State)
    requires NothingToWrite(start) && Inv(s) && Justified(start, s) && Hollow(start, s) && Next(s, t)
    ensures Hollow(start, t)
  {
    hide NothingToWrite, SomebodyAsksForOutput, Justified, Inv, CanAct, FindsOutput, Do, OutputAfter, Creates, FileOpen;
    var e :| Enabled(s, e) && t == Apply(s, e);
    match e
    case Local(i, a) =>
      HollowFacts(start, s, i, a);
      EmptyHanded(s.disk, s.qbytes, s.sessions[i], a, s.output);
      TakenOnlyByReading(s.disk, s.qbytes, s.sessions[i], a);
    case Submit(i) => AskingIsOutside(s.sessions[i]);
    case ServerReceives =>
    case ServerForks =>
  }

  lemma AskingIsOutside(s: Session)
    requires s.client.pc == SendRequest
    ensures !FileOpen(Asked(s).client)
  {
  }

  lemma HollowFacts(start: State, s: State, i: nat, a: Action)
    requires NothingToWrite(start) && Inv(s) && Justified(start, s) && Hollow(start, s) && Enabled(s, Local(i, a))
    ensures FileOpen(s.sessions[i].client) ==> Pending(s.sessions[i].client) == []
    ensures a.ReadsOutput? ==> a.chunk == []
  {
    var c := s.sessions[i];
    SessionIsOk(s, i);
    if FileOpen(c.client) {
      InsideMeansOpened(s.disk, c);
      HollowMeansUnwritten(start, s, i);
    }
    if a.ReadsOutput? {
      assert HasOpened(c.child) && MayOpen(start, i) && c.child.path == c.path;
      assert IsOutput(start.disk, start.sessions[i].path);
      assert SomebodyAsksForOutput(start);
    }
  }

  lemma HollowRun(run: seq<State>)
    requires IsRun(Next, run) && Starting(run[0]) && NothingToWrite(run[0])
    ensures forall k :: 0 <= k < |run| ==> Inv(run[k]) && Justified(run[0], run[k]) && Hollow(run[0], run[k])
  {
    hide Inv, Next, Justified, Hollow, NothingToWrite;
    var start := run[0];
    var inv := (s: State) => Inv(s) && Justified(start, s) && Hollow(start, s);
    forall s, t | inv(s) && Next(s, t)
      ensures inv(t)
    {
      StepKeepsInv(s, t);
      StepKeepsJustified(start, s, t);
      StepKeepsHollow(start, s, t);
    }
    StartInv(start);
    StartJustified(start);
    StartHollow(start);
    InvariantHolds(Next, inv, run);
    assert forall k :: 0 <= k < |run| ==> inv(run[k]);
  }

  lemma StartHollow(start: State)
    requires Starting(start) && NothingToWrite(start)
    ensures Hollow(start, start)
  {
  }

  /** At most one client may open the output file at all. */
  ghost predicate OnlyOne(start: State) {
    forall i, j :: 0 <= i < |start.sessions| && 0 <= j < |start.sessions| && i != j ==>
      !MayOpen(start, i) || !MayOpen(start, j)
  }

  lemma OnlyOneDoesNotOverlap(run: seq<State>)
    requires IsRun(Next, run) && Starting(run[0]) && OnlyOne(run[0])
    ensures forall k :: 0 <= k < |run| ==> NoOverlap(run[k])
  {
    RunIsJustified(run);
    hide Inv, Next, MayOpen, Starting, FileOpen;
    forall k, i, j | 0 <= k < |run| && 0 <= i < j < |run[k].sessions|
      ensures !FileOpen(run[k].sessions[i].client) || !FileOpen(run[k].sessions[j].client)
    {
      if FileOpen(run[k].sessions[i].client) && FileOpen(run[k].sessions[j].client) {
        InsideMeansMayOpen(run[0], run[k], i);
        InsideMeansMayOpen(run[0], run[k], j);
      }
    }
  }

  lemma HarmlessRunKeepsOutput(run: seq<State>)
    requires IsRun(Next, run) && Starting(run[0]) && Harmless(run[0])
    ensures OutputOk(run[|run| - 1])
  {
    hide Next, Inv, MayOpen, OutputOk, Starting, Contents;
    if NothingToWrite(run[0]) {
      HollowRun(run);
      HollowMeansOk(run[0], run[|run| - 1]);
    } else {
      OnlyOneDoesNotOverlap(run);
      OutputIsRight(run);
    }
  }

  // ---------------------------------------------------------------------------------------------
  // Runs without a failing call

  /** The file that client `i` asks for can be opened now. */
  predicate OpensNow(s: State, i: nat)
    requires i < |s.sessions|
  {
    && |s.sessions[i].path| <= PATH_MAX - 1
    && (IsFixed(s.disk, s.sessions[i].path) || (IsOutput(s.disk, s.sessions[i].path) && s.outputExists))
  }

  /** Client `i` has done nothing, and the server is free to have its file opened. */
  predicate CanBeServed(s: State, i: nat) {
    && s.qbytes >= RESP_MSG_SIZE && s.server == Receiving && s.requests == []
    && i < |s.sessions| && AtStart(s.sessions[i]) && OpensNow(s, i)
  }

  /** Nothing but session `i` has changed. */
  predicate OnlySession(s: State, t: State, i: nat) {
    && i < |s.sessions| == |t.sessions|
    && t == s.(sessions := s.sessions[i := t.sessions[i]], submitted := t.submitted, forked := t.forked,
               trace := t.trace)
    && t.sessions[i].path == s.sessions[i].path
  }

  /** The run goes on with event `e`. */
  lemma Go(run: seq<State>, e: Event) returns (longer: seq<State>)
    requires IsRun(Faultless, run) && Enabled(run[|run| - 1], e) && !Fails(e)
    ensures IsRun(Faultless, longer) && longer[0] == run[0] && longer[|longer| - 1] == Apply(run[|run| - 1], e)
  {
    var t := Apply(run[|run| - 1], e);
    ExtendRun(Faultless, run, t);
    longer := run + [t];
  }

  /** What a child that has opened its file has before it. */
  function Ahead(s: State, i: nat): seq<byte>
    requires i < |s.sessions|
  {
    var c := s.sessions[i].child;
    if IsOutput(s.disk, s.sessions[i].path) then Tail(s.output, |c.taken|) else c.rest
  }

  /** Client `i` asks, and its child is forked. */
  lemma BringToFork(run: seq<State>, i: nat) returns (longer: seq<State>)
    requires IsRun(Faultless, run) && CanBeServed(run[|run| - 1], i)
    ensures IsRun(Faultless, longer) && longer[0] == run[0]
    ensures
      var s, t := run[|run| - 1], longer[|longer| - 1];
      && OnlySession(s, t, i) && t.sessions[i].queue == []
      && t.sessions[i].client == s.sessions[i].client.(pc := ReceiveFirst, queueExists := true)
      && t.sessions[i].child == s.sessions[i].child.(pc := OpenFile, path := s.sessions[i].path)
  {
    longer := Go(run, Local(i, ClientAct));
    longer := Go(longer, Submit(i));
    longer := Go(longer, ServerReceives);
    longer := Go(longer, ServerForks);
  }

  /** Client `i` is brought to the point where its child is about to read the file. */
  lemma BringToChild(run: seq<State>, i: nat) returns (longer: seq<State>)
    requires IsRun(Faultless, run) && CanBeServed(run[|run| - 1], i)
    ensures IsRun(Faultless, longer) && longer[0] == run[0]
    ensures
      var s, t := run[|run| - 1], longer[|longer| - 1];
      && OnlySession(s, t, i) && t.sessions[i].queue == []
      && t.sessions[i].client == s.sessions[i].client.(pc := ReceiveFirst, queueExists := true)
      && t.sessions[i].child.pc == ReadFile && t.sessions[i].child.path == s.sessions[i].path
      && t.sessions[i].child.taken == [] && Ahead(t, i) == Contents(s, i)
  {
    var path := run[|run| - 1].sessions[i].path;
    longer := BringToFork(run, i);
    longer := Go(longer, Local(i, if IsOutput(run[|run| - 1].disk, path) then OpensOutput(true) else ChildAct(0)));
  }

  /** The child reads `n` bytes and sends them, or END at the end of the file. */
  lemma ReadAndSend(run: seq<State>, i: nat, n: nat) returns (longer: seq<State>)
    requires IsRun(Faultless, run) && i < |run[|run| - 1].sessions|
    requires
      var s := run[|run| - 1];
      && s.qbytes >= RESP_MSG_SIZE && s.sessions[i].client.queueExists && s.sessions[i].queue == []
      && s.sessions[i].child.pc == ReadFile && s.sessions[i].child.path == s.sessions[i].path
      && MayRead(Ahead(s, i), RESP_MSG_SIZE, n)
    ensures IsRun(Faultless, longer) && longer[0] == run[0]
    ensures
      var s, t := run[|run| - 1], longer[|longer| - 1];
      var m := Message(if n == 0 then EndMsg else DataMsg, Ahead(s, i)[..n]);
      && OnlySession(s, t, i) && t.sessions[i].client == s.sessions[i].client && t.sessions[i].queue == [m]
      && (n > 0 ==>
            && t.sessions[i].child.pc == ReadFile && t.sessions[i].child.path == s.sessions[i].path
            && (IsOutput(s.disk, s.sessions[i].path) ==>
                  t.sessions[i].child.taken == s.sessions[i].child.taken + Ahead(s, i)[..n])
            && (!IsOutput(s.disk, s.sessions[i].path) ==> Ahead(t, i) == Ahead(s, i)[n..]))
  {
    var s := run[|run| - 1];
    var read := if IsOutput(s.disk, s.sessions[i].path) then ReadsOutput(Ahead(s, i)[..n]) else ChildAct(n);
    longer := Go(run, Local(i, read));
    assert Payload(longer[|longer| - 1].sessions[i].queue) == [];
    longer := Go(longer, Local(i, ChildAct(0)));
  }

  /** Client `i` receives a first message of `n` bytes, END if there is none, and truncates the output file. */
  lemma BringToOpen(run: seq<State>, i: nat, n: nat) returns (longer: seq<State>)
    requires IsRun(Faultless, run) && CanBeServed(run[|run| - 1], i)
    requires MayRead(Contents(run[|run| - 1], i), RESP_MSG_SIZE, n)
    ensures IsRun(Faultless, longer) && longer[0] == run[0]
    ensures
      var s, t := run[|run| - 1], longer[|longer| - 1];
      && OnlySession(s.(outputExists := true, output := []), t, i)
      && var c := t.sessions[i];
      && c.client.pc == WriteFirst && c.client.written == [] && c.client.queueExists && c.queue == []
      && c.client.resp == Message(if n == 0 then EndMsg else DataMsg, Contents(s, i)[..n])
      && (n > 0 ==> c.child.pc == ReadFile && c.child.path == c.path)
      && (n > 0 && IsOutput(s.disk, c.path) ==> c.child.taken == Contents(s, i)[..n])
  {
    longer := BringToChild(run, i);
    longer := ReadAndSend(longer, i, n);
    longer := Go(longer, Local(i, ClientAct));
    longer := Go(longer, Local(i, ClientAct));
  }

  /** It goes on to write that message. */
  lemma BringToWritten(run: seq<State>, i: nat, n: nat) returns (longer: seq<State>)
    requires IsRun(Faultless, run) && CanBeServed(run[|run| - 1], i)
    requires MayRead(Contents(run[|run| - 1], i), RESP_MSG_SIZE, n)
    ensures IsRun(Faultless, longer) && longer[0] == run[0]
    ensures
      var s, t := run[|run| - 1], longer[|longer| - 1];
      && OnlySession(s.(outputExists := true, output := Contents(s, i)[..n]), t, i)
      && var c := t.sessions[i];
      && c.client.pc == TestMore && c.client.written == Contents(s, i)[..n] && c.client.queueExists && c.queue == []
      && c.client.resp.kind == (if n == 0 then EndMsg else DataMsg)
      && (n > 0 ==> c.child.pc == ReadFile && c.child.path == c.path)
      && (n > 0 && IsOutput(s.disk, c.path) ==> c.child.taken == Contents(s, i)[..n])
  {
    longer := BringToOpen(run, i, n);
    longer := Go(longer, Local(i, ClientAct));
  }

  /** One client has written its first byte when the next truncates the file. */
  lemma SpoilingRun(start: State, i: nat, j: nat) returns (run: seq<State>)
    requires Starting(start) && i < |start.sessions| && j < |start.sessions| && i != j
    requires MayOpen(start, i) && MayOpen(start, j) && Contents(start, i) != []
    ensures IsRun(Faultless, run) && run[0] == start && !OutputOk(run[|run| - 1])
  {
    hide Faultless, OutputOk;
    run := BringToWritten([start], i, 1);
    var s := run[|run| - 1];
    run := BringToOpen(run, j, if Contents(s, j) == [] then 0 else 1);
    SpoiltFor(run[|run| - 1], i, j);
  }

  lemma SpoiltFor(s: State, i: nat, j: nat)
    requires i < |s.sessions| && j < |s.sessions| && FileOpen(s.sessions[i].client) && FileOpen(s.sessions[j].client)
    requires s.sessions[i].client.written != s.sessions[j].client.written
    ensures !OutputOk(s)
  {
    assert s.output != s.sessions[i].client.written || s.output != s.sessions[j].client.written;
  }

  /** The output file is right in every run exactly when no two clients may open it, or when what they ask for is empty.
      Otherwise some interleaving spoils it for one of them, even though no call fails. */
  lemma OutputIsRightExactly(start: State)
    requires Starting(start)
    ensures (forall run :: IsRun(Next, run) && run[0] == start ==> OutputOk(run[|run| - 1])) <==> Harmless(start)
    ensures (forall run :: IsRun(Faultless, run) && run[0] == start ==> OutputOk(run[|run| - 1])) <==> Harmless(start)
  {
    hide Next, Faultless, Inv, Starting, MayOpen, OutputOk, Contents;
    if Harmless(start) {
      hide Harmless;
      forall run | IsRun(Next, run) && run[0] == start
        ensures OutputOk(run[|run| - 1])
      {
        HarmlessRunKeepsOutput(run);
      }
      forall run | IsRun(Faultless, run) && run[0] == start
        ensures OutputOk(run[|run| - 1])
      {
        FaultlessIsRun(run);
      }
    } else {
      var i: nat, j: nat :| i < |start.sessions| && j < |start.sessions| && i != j
        && MayOpen(start, i) && MayOpen(start, j) && Contents(start, i) != [];
      var run := SpoilingRun(start, i, j);
      FaultlessIsRun(run);
    }
  }

  /** In particular: a client asks for the output file, which does not exist yet, beside one that asks for a file with
      something in it. */
  lemma AskingBesideSpoils(start: State, i: nat, j: nat) returns (run: seq<State>)
    requires Starting(start) && i < |start.sessions| && j < |start.sessions|
    requires Openable(start, i) && start.disk[start.sessions[i].path].bytes != []
    requires |start.sessions[j].path| <= PATH_MAX - 1 && IsOutput(start.disk, start.sessions[j].path)
    ensures IsRun(Faultless, run) && run[0] == start && !OutputOk(run[|run| - 1])
  {
    run := SpoilingRun(start, i, j);
  }

  // ---------------------------------------------------------------------------------------------
  // A client that asks for the output file itself

  /** Client `i` reports, with `written` as what it wrote, in some run without a failing call. */
  ghost predicate MayReport(start: State, i: nat, written: seq<byte>) {
    exists run :: IsRun(Faultless, run) && run[0] == start && Reports(run[|run| - 1], i, written)
  }

  predicate Reports(s: State, i: nat, written: seq<byte>) {
    i < |s.sessions| && s.sessions[i].client.reported && s.sessions[i].client.written == written
  }

  /** It reads `n` bytes, which it then truncates, and finds the end of the file where the rest was: it reports `n`
      bytes and a success, and no call has failed. */
  lemma LosesItself(run: seq<State>, i: nat, n: nat) returns (longer: seq<State>)
    requires IsRun(Faultless, run) && CanBeServed(run[|run| - 1], i)
    requires IsOutput(run[|run| - 1].disk, run[|run| - 1].sessions[i].path)
    requires n <= 8192 && n <= |run[|run| - 1].output| && (n == 0 ==> run[|run| - 1].output == [])
    ensures IsRun(Faultless, longer) && longer[0] == run[0]
    ensures Reports(longer[|longer| - 1], i, run[|run| - 1].output[..n])
  {
    longer := BringToWritten(run, i, n);
    if n > 0 {
      longer := EndAfterChunk(longer, i);
    }
    longer := Go(longer, Local(i, ClientAct));
    longer := Go(longer, Local(i, ClientAct));
  }

  /** The child finds the end of the output file, and the client takes the END that it sends. */
  lemma EndAfterChunk(run: seq<State>, i: nat) returns (longer: seq<State>)
    requires IsRun(Faultless, run) && i < |run[|run| - 1].sessions|
    requires
      var s := run[|run| - 1];
      var c := s.sessions[i];
      && s.qbytes >= RESP_MSG_SIZE && c.client.pc == TestMore && c.client.queueExists && c.queue == []
      && c.client.resp.kind == DataMsg && c.child.pc == ReadFile && c.child.path == c.path && Ahead(s, i) == []
    ensures IsRun(Faultless, longer) && longer[0] == run[0]
    ensures
      var s, t := run[|run| - 1], longer[|longer| - 1];
      && i < |t.sessions| && t.sessions[i].client.pc == TestMore && t.sessions[i].client.resp.kind == EndMsg
      && t.sessions[i].client.written == s.sessions[i].client.written
  {
    longer := Go(run, Local(i, ClientAct));
    longer := ReadAndSend(longer, i, 0);
    longer := Go(longer, Local(i, ClientAct));
    longer := Go(longer, Local(i, ClientAct));
  }

  /** Only client `i` may open the output file, if anybody. */
  ghost predicate Alone(start: State, i: nat) {
    forall j :: 0 <= j < |start.sessions| && j != i ==> !MayOpen(start, j)
  }

  /** Client `i` alone uses the output file, which held one byte: its child has read nothing and the file is as it
      was, or it has read that byte. */
  predicate Solo(start: State, s: State, i: nat)
    requires i < |s.sessions|
  {
    var c := s.sessions[i].child;
    && |s.output| <= 1 && !c.cut
    && (if c.taken == [] then
          c.pc in {NotForked, OpenFile, ReadFile, SendFailure, Finished} && s.output == start.output
            && (c.pc == Finished ==> Refused(c))
        else c.taken == start.output)
  }

  /** A child that has read nothing of the output file has sent no chunk, so its client is outside. */
  lemma UnreadMeansOutside(disk: Disk, s: Session)
    requires SessionOk(disk, s) && IsOutput(disk, s.path) && s.child.taken == []
    requires s.child.pc in {NotForked, OpenFile, ReadFile, SendFailure} || Refused(s.child)
    ensures !FileOpen(s.client) && !Creates(s.client, ClientAct)
  {
    if s.client.got != [] {
      assert s.child.sent[0] == s.client.got[0];
      if !Refused(s.child) {
        ChunksCount(s.child.sent);
        assert false;
      }
    }
    hide Payload;
  }

  lemma ChunksCount(msgs: seq<Message>)
    requires ChunksBefore(msgs, |msgs|)
    ensures |msgs| <= |Payload(msgs)|
  {
    forall i | 0 <= i < |msgs|
      ensures 1 <= |Datas(msgs)[i]| <= RESP_MSG_SIZE
    {
      assert IsChunk(msgs[i]);
    }
    ChunkCount(Datas(msgs), RESP_MSG_SIZE);
  }

  lemma SoloStep(start: State, s: State, i: nat, a: Action)
    requires Inv(s) && i < |s.sessions| && IsOutput(s.disk, s.sessions[i].path) && |start.output| == 1
    requires Solo(start, s, i) && Enabled(s, Local(i, a)) && !Fails(Local(i, a))
    ensures Solo(start, Apply(s, Local(i, a)), i)
  {
    var c := s.sessions[i];
    SessionIsOk(s, i);
    if a == ClientAct {
      WrittenIsBounded(s.disk, s.qbytes, c, s.output, 1);
      if c.child.taken == [] {
        UnreadMeansOutside(s.disk, c);
      }
    } else {
      SoloChildStep(start, s, i, a);
    }
    hide Inv, SessionOk;
  }

  lemma SoloChildStep(start: State, s: State, i: nat, a: Action)
    requires Inv(s) && i < |s.sessions| && IsOutput(s.disk, s.sessions[i].path) && |start.output| == 1
    requires Solo(start, s, i) && Enabled(s, Local(i, a)) && !Fails(Local(i, a)) && a != ClientAct
    ensures Solo(start, Apply(s, Local(i, a)), i)
  {
    SessionIsOk(s, i);
    hide Inv, ClientOk, Payload, Room;
  }

  /** A client that may not open the output file leaves it alone. */
  lemma OutsiderLeavesOutput(start: State, s: State, j: nat, a: Action)
    requires Inv(s) && Justified(start, s) && Enabled(s, Local(j, a)) && !MayOpen(start, j)
    ensures Apply(s, Local(j, a)).output == s.output
  {
    var c := s.sessions[j];
    SessionIsOk(s, j);
    if FileOpen(c.client) {
      InsideMeansOpened(s.disk, c);
    }
    if Creates(c.client, a) {
      CreatorHasOpened(s.disk, c);
    }
    hide Inv, SessionOk;
    EmptyHanded(s.disk, s.qbytes, c, a, s.output);
  }

  lemma StepKeepsSolo(start: State, s: State, t: State, i: nat)
    requires Inv(s) && Justified(start, s) && i < |s.sessions| && Alone(start, i) && |start.output| == 1
    requires IsOutput(s.disk, s.sessions[i].path) && Solo(start, s, i) && Faultless(s, t)
    ensures i < |t.sessions| && Solo(start, t, i)
  {
    hide Inv, Justified, CanAct, FindsOutput, Do, MayOpen;
    var e :| Enabled(s, e) && !Fails(e) && t == Apply(s, e);
    match e
    case Local(j, a) =>
      if i == j {
        SoloStep(start, s, i, a);
      } else {
        assert |start.sessions| == |s.sessions| by {
          SameClients(start, s);
        }
        OutsiderLeavesOutput(start, s, j, a);
      }
    case Submit(j) =>
    case ServerReceives =>
    case ServerForks => ForkOfUnforked(s);
  }

  lemma SameClients(start: State, s: State)
    requires Justified(start, s)
    ensures |start.sessions| == |s.sessions| && start.disk == s.disk
    ensures forall i :: 0 <= i < |s.sessions| ==> start.sessions[i].path == s.sessions[i].path
  {
  }

  lemma ForkOfUnforked(s: State)
    requires Inv(s) && Enabled(s, ServerForks)
    ensures s.sessions[s.server.request.clientId].child.pc == NotForked
  {
    assert Outstanding(s)[0] == s.server.request;
    hide SessionOk;
  }

  lemma SoloRun(run: seq<State>, i: nat)
    requires IsRun(Faultless, run) && Starting(run[0]) && i < |run[0].sessions| && Alone(run[0], i)
    requires IsOutput(run[0].disk, run[0].sessions[i].path) && |run[0].output| == 1
    ensures
      var last := run[|run| - 1];
      i < |last.sessions| && Inv(last) && Justified(run[0], last) && Solo(run[0], last, i)
  {
    hide Next, Faultless, Inv, Justified, Alone, Starting, Solo;
    var start := run[0];
    var inv := (s: State) => i < |s.sessions| && Inv(s) && Justified(start, s) && Solo(start, s, i);
    forall s, t | inv(s) && Faultless(s, t)
      ensures inv(t)
    {
      SameClients(start, s);
      FaultlessIsNext(s, t);
      StepKeepsInv(s, t);
      StepKeepsJustified(start, s, t);
      StepKeepsSolo(start, s, t, i);
    }
    StartInv(start);
    StartJustified(start);
    StartSolo(start, i);
    InvariantHolds(Faultless, inv, run);
    assert inv(run[|run| - 1]);
  }

  lemma FaultlessIsNext(s: State, t: State)
    requires Faultless(s, t)
    ensures Next(s, t)
  {
  }

  lemma StartSolo(start: State, i: nat)
    requires Starting(start) && i < |start.sessions| && |start.output| == 1
    ensures Solo(start, start, i)
  {
  }

  /** The good cases. */
  lemma GetsItself(start: State, i: nat, written: seq<byte>)
    requires Starting(start) && i < |start.sessions| && MayReport(start, i, written)
    requires IsOutput(start.disk, start.sessions[i].path)
    requires !MayOpen(start, i) || NothingToWrite(start) || (Alone(start, i) && |start.output| <= 1)
    ensures written == start.output
  {
    hide Faultless, Starting, Alone, NothingToWrite, MayOpen;
    var run :| IsRun(Faultless, run) && run[0] == start && Reports(run[|run| - 1], i, written);
    ReporterRead(run, i);
    if NothingToWrite(start) {
      HollowReporter(run, i);
    } else {
      NotEmptyAlone(start, i);
      SoloRun(run, i);
      SoloHasRead(start, run[|run| - 1], i);
    }
  }

  lemma ReporterRead(run: seq<State>, i: nat)
    requires IsRun(Faultless, run) && Starting(run[0]) && i < |run[0].sessions|
    requires IsOutput(run[0].disk, run[0].sessions[i].path)
    requires i < |run[|run| - 1].sessions| && run[|run| - 1].sessions[i].client.reported
    ensures
      var c := run[|run| - 1].sessions[i];
      MayOpen(run[0], i) && c.client.written == c.child.taken && HasOpened(c.child) && c.child.pc == Finished
  {
    hide Faultless, Next, Starting, Inv, Justified, MayOpen, HasOpened, SameWorld;
    FaultlessIsRun(run);
    RunIsJustified(run);
    UncutAllAlong(run);
    ReporterHasOpened(run[0], run[|run| - 1], i);
  }

  lemma HollowReporter(run: seq<State>, i: nat)
    requires IsRun(Faultless, run) && Starting(run[0]) && NothingToWrite(run[0])
    requires i < |run[0].sessions| && MayOpen(run[0], i) && IsOutput(run[0].disk, run[0].sessions[i].path)
    requires i < |run[|run| - 1].sessions|
    ensures run[|run| - 1].sessions[i].child.taken == run[0].output == []
  {
    FaultlessIsRun(run);
    hide Next, Faultless, Starting, Inv, Justified, NothingToWrite, MayOpen;
    HollowRun(run);
    EmptyContents(run[0], i);
  }

  lemma EmptyContents(start: State, i: nat)
    requires NothingToWrite(start) && i < |start.sessions| && MayOpen(start, i)
    ensures Contents(start, i) == []
  {
  }

  lemma NotEmptyAlone(start: State, i: nat)
    requires Alone(start, i) && |start.output| <= 1 && !NothingToWrite(start) && i < |start.sessions|
    requires IsOutput(start.disk, start.sessions[i].path)
    ensures |start.output| == 1
  {
  }

  lemma ReporterHasOpened(start: State, s: State, i: nat)
    requires Inv(s) && Justified(start, s) && i < |s.sessions| && s.sessions[i].client.reported
    requires i < |start.sessions| && IsOutput(start.disk, start.sessions[i].path)
    ensures MayOpen(start, i) && HasOpened(s.sessions[i].child) && s.sessions[i].child.pc == Finished
    ensures s.sessions[i].client.written == s.sessions[i].child.taken <==> !s.sessions[i].child.cut
  {
    SessionIsOk(s, i);
    ReportMeansWhole(s.disk, s.sessions[i]);
    hide Inv, SessionOk;
  }

  lemma SoloHasRead(start: State, s: State, i: nat)
    requires i < |s.sessions| && Solo(start, s, i) && HasOpened(s.sessions[i].child)
    requires s.sessions[i].child.pc == Finished
    ensures s.sessions[i].child.taken == start.output
  {
  }

  /** A client that asks for the output file gets just what was in it at the start, whenever it reports, exactly when it
      cannot be served at all, when there is nothing for anybody to write, or when it is alone and one byte is all there
      is. Else it loses bytes, or gets another client's, without a failing call. */
  lemma ReadsItselfExactly(start: State, i: nat)
    requires Starting(start) && i < |start.sessions|
    requires |start.sessions[i].path| <= PATH_MAX - 1 && IsOutput(start.disk, start.sessions[i].path)
    ensures (forall written :: MayReport(start, i, written) ==> written == start.output)
       <==> (!MayOpen(start, i) || NothingToWrite(start) || (Alone(start, i) && |start.output| <= 1))
  {
    hide MayReport, MayOpen, Starting, Contents, NothingToWrite, Alone;
    if !MayOpen(start, i) || NothingToWrite(start) || (Alone(start, i) && |start.output| <= 1) {
      forall written | MayReport(start, i, written)
        ensures written == start.output
      {
        GetsItself(start, i, written);
      }
    } else {
      var written := LosesOrMixes(start, i);
    }
  }

  lemma LosesOrMixes(start: State, i: nat) returns (written: seq<byte>)
    requires Starting(start) && i < |start.sessions| && IsOutput(start.disk, start.sessions[i].path)
    requires MayOpen(start, i) && !NothingToWrite(start) && !(Alone(start, i) && |start.output| <= 1)
    ensures MayReport(start, i, written) && written != start.output
  {
    hide Faultless;
    var run := [start];
    if |start.output| >= 2 {
      written := start.output[..1];
    } else if start.output != [] {
      var j: nat :| j < |start.sessions| && j != i && MayOpen(start, j);
      run := BringToOpen(run, j, if Contents(start, j) == [] then 0 else 1);
      written := [];
    } else {
      var j: nat :| j < |start.sessions| && MayOpen(start, j) && Contents(start, j) != [];
      run := BringToWritten(run, j, 1);
      written := run[|run| - 1].output;
    }
    run := LosesItself(run, i, |written|);
    assert Reports(run[|run| - 1], i, written);
  }
}
