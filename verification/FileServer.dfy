/** The whole file service: one server, one request queue, any number of clients, one forked child per request and
    one private queue per client. Sessions are numbered, and the number of a session is its queue's identifier. */
module FileServer {
  import opened Streams
  import opened Runs
  import opened Sums
  import opened FileSession

  /** clientId (4 bytes) and pathname: the size a request occupies in the server's queue. */
  const REQ_MSG_SIZE: nat := 4 + PATH_MAX

  datatype Request = Request(clientId: nat, path: Path)
  datatype ServerPc = Receiving | Forking(request: Request)

  /** What client `i` did to the output file. */
  datatype FileOp = Truncate(i: nat) | Write(i: nat, offset: nat, data: seq<byte>)

  /** `disk` says what the paths lead to that can be opened; `qbytes` is the byte limit of every queue; `outputExists`
      and `output` are the one output file that every client opens, and its contents. `submitted` records which clients
      have had their request accepted, in order, `forked` for which clients a child has been forked, in order, and
      `trace` every truncation of the output file and every write to it. */
  datatype State = State(
    disk: Disk, qbytes: nat,
    requests: seq<Request>, server: ServerPc, sessions: seq<Session>, outputExists: bool, output: seq<byte>,
    submitted: seq<nat>, forked: seq<nat>, trace: seq<FileOp>)

  datatype Event = Local(i: nat, action: Action) | Submit(i: nat) | ServerReceives | ServerForks

  /** What a read at `offset` has before it. */
  function Tail(file: seq<byte>, offset: nat): seq<byte> {
    if offset <= |file| then file[offset..] else []
  }

  /** A child that opens or reads the output file finds it as it is at that moment. */
  predicate FindsOutput(s: State, c: Child, a: Action) {
    match a
    case OpensOutput(found) => found == s.outputExists
    case ReadsOutput(chunk) =>
      MayRead(Tail(s.output, |c.taken|), RESP_MSG_SIZE, |chunk|) && chunk <= Tail(s.output, |c.taken|)
    case _ => true
  }

  predicate Enabled(s: State, e: Event) {
    match e
    case Local(i, action) =>
      && i < |s.sessions| && CanAct(s.disk, s.qbytes, s.sessions[i], action)
      && FindsOutput(s, s.sessions[i].child, action)
    case Submit(i) =>
      i < |s.sessions| && s.sessions[i].client.pc == SendRequest && (|s.requests| + 1) * REQ_MSG_SIZE <= s.qbytes
    case ServerReceives => s.server == Receiving && s.requests != []
    case ServerForks => s.server.Forking? && s.server.request.clientId < |s.sessions|
  }

  /** The request has been accepted by the server's queue. */
  function Asked(s: Session): Session {
    s.(client := s.client.(pc := ReceiveFirst))
  }

  /** The forked child serves the request it inherited: it opens that path and answers on that queue. */
  function Fork(c: Child, r: Request): Child {
    c.(pc := OpenFile, path := r.path)
  }

  /** The record of what is done to the output file, after a statement of client `i`. */
  function TraceAfter(trace: seq<FileOp>, i: nat, c: Client, a: Action): seq<FileOp> {
    if a != ClientAct then trace
    else if c.pc == HandleFirst && c.resp.kind != FailureMsg then trace + [Truncate(i)]
    else if c.pc in {WriteFirst, HandleNext} then trace + [Write(i, |c.written|, c.resp.data)]
    else trace
  }

  function Apply(s: State, e: Event): State
    requires Enabled(s, e)
  {
    match e
    case Local(i, action) =>
      s.(sessions := s.sessions[i := Do(s.disk, s.qbytes, s.sessions[i], action)],
         outputExists := s.outputExists || Creates(s.sessions[i].client, action),
         output := OutputAfter(s.output, s.sessions[i].client, action),
         trace := TraceAfter(s.trace, i, s.sessions[i].client, action))
    case Submit(i) =>
      var asking := s.sessions[i];
      s.(requests := s.requests + [Request(i, asking.path)],
         submitted := s.submitted + [i],
         sessions := s.sessions[i := Asked(asking)])
    case ServerReceives => s.(server := Forking(s.requests[0]), requests := s.requests[1..])
    case ServerForks =>
      var r := s.server.request;
      var asking := s.sessions[r.clientId];
      s.(server := Receiving, forked := s.forked + [r.clientId],
         sessions := s.sessions[r.clientId := asking.(child := Fork(asking.child, r))])
  }

  ghost predicate Next(s: State, t: State) {
    exists e :: Enabled(s, e) && t == Apply(s, e)
  }

  predicate Fails(e: Event) {
    e.Local? && (e.action.ReadFails? || e.action.SendFails?)
  }

  /** A step in which no call fails. */
  ghost predicate Faultless(s: State, t: State) {
    exists e :: Enabled(s, e) && !Fails(e) && t == Apply(s, e)
  }

  predicate Starting(s: State) {
    && s.qbytes >= RESP_MSG_SIZE && s.requests == [] && s.server == Receiving
    && (!s.outputExists ==> s.output == []) && s.submitted == [] && s.forked == [] && s.trace == []
    && forall i :: 0 <= i < |s.sessions| ==> AtStart(s.sessions[i])
  }

  // ---------------------------------------------------------------------------------------------
  // The invariant

  /** Requests sent and not yet forked for, in order. */
  function Outstanding(s: State): seq<Request> {
    (if s.server.Forking? then [s.server.request] else []) + s.requests
  }

  /** Each outstanding request is the only one of a session that awaits its child, and carries that session's path. */
  predicate RequestsOk(sessions: seq<Session>, rs: seq<Request>) {
    && (forall k :: 0 <= k < |rs| ==>
          && rs[k].clientId < |sessions| && Awaiting(sessions[rs[k].clientId])
          && rs[k].path == sessions[rs[k].clientId].path)
    && (forall k, l :: 0 <= k < l < |rs| ==> rs[k].clientId != rs[l].clientId)
  }

  /** Every session that awaits its child has a request outstanding. */
  predicate AwaitedOk(sessions: seq<Session>, rs: seq<Request>) {
    forall i :: 0 <= i < |sessions| && Awaiting(sessions[i]) ==> exists k :: 0 <= k < |rs| && rs[k].clientId == i
  }

  predicate SessionsOk(s: State) {
    && s.qbytes >= RESP_MSG_SIZE
    && forall i :: 0 <= i < |s.sessions| ==> SessionOk(s.disk, s.sessions[i])
  }

  function Ids(rs: seq<Request>): seq<nat> {
    seq(|rs|, k requires 0 <= k < |rs| => rs[k].clientId)
  }

  /** First come, first served: children are forked in the order in which requests were submitted, and the outstanding
      requests are the ones next in turn. */
  predicate FirstCome(s: State) {
    s.forked + Ids(Outstanding(s)) == s.submitted
  }

  predicate Inv(s: State) {
    FirstCome(s) && SessionsOk(s) && RequestsOk(s.sessions, Outstanding(s)) && AwaitedOk(s.sessions, Outstanding(s))
  }

  lemma StartInv(s: State)
    requires Starting(s)
    ensures Inv(s)
  {
    forall i | 0 <= i < |s.sessions|
      ensures SessionOk(s.disk, s.sessions[i])
    {
      StartOk(s.disk, s.sessions[i]);
    }
  }

  lemma LocalKeepsInv(s: State, i: nat, action: Action)
    requires Inv(s) && Enabled(s, Local(i, action))
    ensures Inv(Apply(s, Local(i, action)))
  {
    hide SessionOk, CanAct, Do;
    ActionKeepsOk(s.disk, s.qbytes, s.sessions[i], action);
    ActionKeepsAwaiting(s.disk, s.qbytes, s.sessions[i], action);
    var t := Apply(s, Local(i, action));
    assert Outstanding(t) == Outstanding(s);
    assert forall j :: 0 <= j < |s.sessions| ==>
      (Awaiting(t.sessions[j]) <==> Awaiting(s.sessions[j])) && t.sessions[j].path == s.sessions[j].path;
  }

  lemma AskedKeepsOk(disk: Disk, s: Session)
    requires SessionOk(disk, s) && s.client.pc == SendRequest
    ensures SessionOk(disk, Asked(s)) && Awaiting(Asked(s)) && !Awaiting(s)
  {
  }

  lemma SubmitKeepsInv(s: State, i: nat)
    requires Inv(s) && Enabled(s, Submit(i))
    ensures Inv(Apply(s, Submit(i)))
  {
    hide SessionOk;
    var t := Apply(s, Submit(i));
    AskedKeepsOk(s.disk, s.sessions[i]);
    assert Outstanding(t) == Outstanding(s) + [Request(i, s.sessions[i].path)];
    AppendRequest(s.sessions, Outstanding(s), i);
  }

  lemma AppendRequest(sessions: seq<Session>, rs: seq<Request>, i: nat)
    requires RequestsOk(sessions, rs) && AwaitedOk(sessions, rs)
    requires i < |sessions| && !Awaiting(sessions[i]) && Awaiting(Asked(sessions[i]))
    ensures RequestsOk(sessions[i := Asked(sessions[i])], rs + [Request(i, sessions[i].path)])
    ensures AwaitedOk(sessions[i := Asked(sessions[i])], rs + [Request(i, sessions[i].path)])
  {
    var after := sessions[i := Asked(sessions[i])];
    var all := rs + [Request(i, sessions[i].path)];
    assert all[|rs|].clientId == i;
    forall j | 0 <= j < |after| && j != i && Awaiting(after[j])
      ensures exists k :: 0 <= k < |all| && all[k].clientId == j
    {
      assert Awaiting(sessions[j]);
      var k :| 0 <= k < |rs| && rs[k].clientId == j;
      assert all[k].clientId == j;
    }
  }

  lemma ReceiveKeepsInv(s: State)
    requires Inv(s) && Enabled(s, ServerReceives)
    ensures Inv(Apply(s, ServerReceives))
  {
    assert Outstanding(Apply(s, ServerReceives)) == Outstanding(s);
  }

  lemma ForkKeepsInv(s: State)
    requires Inv(s) && Enabled(s, ServerForks)
    ensures Inv(Apply(s, ServerForks))
  {
    var t := Apply(s, ServerForks);
    var r := s.server.request;
    var asking := s.sessions[r.clientId];
    var forked := asking.(child := Fork(asking.child, r));
    assert Outstanding(s)[0] == r;
    ForkKeepsSession(s.disk, asking, r);
    hide SessionOk, RequestsOk, AwaitedOk, Awaiting, Fork;
    assert Outstanding(t) == Outstanding(s)[1..];
    DropRequest(s.sessions, Outstanding(s), forked);
    ForkKeepsOrder(s, t);
    hide FirstCome;
  }

  lemma ForkKeepsOrder(s: State, t: State)
    requires FirstCome(s) && Outstanding(s) != [] && Outstanding(t) == Outstanding(s)[1..]
    requires t.submitted == s.submitted && t.forked == s.forked + [Outstanding(s)[0].clientId]
    ensures FirstCome(t)
  {
    assert Ids(Outstanding(s)) == [Outstanding(s)[0].clientId] + Ids(Outstanding(t));
  }

  lemma ForkKeepsSession(disk: Disk, s: Session, r: Request)
    requires SessionOk(disk, s) && Awaiting(s) && r.path == s.path
    ensures
      var t := s.(child := Fork(s.child, r));
      SessionOk(disk, t) && !Awaiting(t)
  {
    hide Payload;
  }

  /** The oldest request is done with, and its session does not await a child any more. */
  lemma DropRequest(sessions: seq<Session>, rs: seq<Request>, d: Session)
    requires rs != [] && RequestsOk(sessions, rs) && AwaitedOk(sessions, rs) && !Awaiting(d)
    ensures RequestsOk(sessions[rs[0].clientId := d], rs[1..])
    ensures AwaitedOk(sessions[rs[0].clientId := d], rs[1..])
  {
    hide Awaiting;
    var rest := rs[1..];
    assert forall k :: 0 <= k < |rest| ==> rest[k] == rs[k + 1];
    forall j | 0 <= j < |sessions| && j != rs[0].clientId && Awaiting(sessions[j])
      ensures exists k :: 0 <= k < |rest| && rest[k].clientId == j
    {
      var k :| 0 <= k < |rs| && rs[k].clientId == j;
      assert rest[k - 1].clientId == j;
    }
  }

  lemma StepKeepsInv(s: State, t: State)
    requires Inv(s) && Next(s, t)
    ensures Inv(t)
  {
    hide Inv, Apply, Enabled;
    var e :| Enabled(s, e) && t == Apply(s, e);
    match e
    case Local(i, action) => LocalKeepsInv(s, i, action);
    case Submit(i) => SubmitKeepsInv(s, i);
    case ServerReceives => ReceiveKeepsInv(s);
    case ServerForks => ForkKeepsInv(s);
  }

  // ---------------------------------------------------------------------------------------------
  // Every run

  /** Files, clients and their arguments do not change. */
  predicate SameWorld(s: State, t: State) {
    && t.disk == s.disk && t.qbytes == s.qbytes && |t.sessions| == |s.sessions|
    && forall i :: 0 <= i < |s.sessions| ==> t.sessions[i].path == s.sessions[i].path
  }

  lemma StepKeepsWorld(s: State, t: State)
    requires Inv(s) && Next(s, t)
    ensures SameWorld(s, t)
  {
    var e :| Enabled(s, e) && t == Apply(s, e);
    if e.Local? {
      ActionKeepsAwaiting(s.disk, s.qbytes, s.sessions[e.i], e.action);
      hide SessionOk, CanAct, Do;
    }
  }

  lemma RunKeepsInv(run: seq<State>)
    requires IsRun(Next, run) && Starting(run[0])
    ensures forall k :: 0 <= k < |run| ==> Inv(run[k]) && SameWorld(run[0], run[k])
  {
    hide Inv, Next;
    var start := run[0];
    var inv := (s: State) => Inv(s) && SameWorld(start, s);
    forall s, t | inv(s) && Next(s, t)
      ensures inv(t)
    {
      StepKeepsInv(s, t);
      StepKeepsWorld(s, t);
    }
    StartInv(start);
    InvariantHolds(Next, inv, run);
    assert forall k :: 0 <= k < |run| ==> inv(run[k]);
  }

  /** Main theorem: whatever the number of clients and the interleaving, in every state of every run each client has
      written a prefix of the file it asked for, or of what its child has read if that is the output file; the rest is
      where `SessionConserved` says, and `SessionCorrect` holds of its queue and its report. */
  lemma EverySessionIsCorrect(run: seq<State>, k: nat, i: nat)
    requires IsRun(Next, run) && Starting(run[0]) && k < |run| && i < |run[0].sessions|
    ensures
      && i < |run[k].sessions| && run[k].sessions[i].path == run[0].sessions[i].path
      && SessionCorrect(run[0].disk, run[k].sessions[i])
      && run[k].sessions[i].client.written
           <= Source(run[0].disk, run[0].sessions[i].path, run[k].sessions[i].child)
  {
    hide Next, SessionOk, SessionCorrect;
    RunKeepsInv(run);
    OkMeansCorrect(run[0].disk, run[k].sessions[i]);
    CorrectMeansPrefix(run[0].disk, run[k].sessions[i]);
  }

  lemma CorrectMeansPrefix(disk: Disk, s: Session)
    requires SessionCorrect(disk, s)
    ensures s.client.written <= Source(disk, s.path, s.child)
  {
    var c := s.client;
    assert c.written + Pending(c) + Payload(s.queue) + s.child.held + Unsent(disk, s)
        == c.written + (Pending(c) + Payload(s.queue) + s.child.held + Unsent(disk, s));
  }

  lemma SessionIsOk(s: State, i: nat)
    requires Inv(s) && i < |s.sessions|
    ensures SessionOk(s.disk, s.sessions[i])
  {
    hide SessionOk;
  }

  lemma FaultlessIsRun(run: seq<State>)
    requires IsRun(Faultless, run)
    ensures IsRun(Next, run)
  {
    forall k | 0 <= k < |run| - 1
      ensures Next(run[k], run[k + 1])
    {
      assert Faultless(run[k], run[k + 1]);
    }
  }

  // ---------------------------------------------------------------------------------------------
  // First come, first served, and who blocks when

  predicate HistoriesGrow(s: State, t: State) {
    s.submitted <= t.submitted && s.forked <= t.forked && s.trace <= t.trace
  }

  lemma StepGrowsHistories(s: State, t: State)
    requires Next(s, t)
    ensures HistoriesGrow(s, t)
  {
    hide CanAct, Do, OutputAfter, FindsOutput;
    var e :| Enabled(s, e) && t == Apply(s, e);
  }

  lemma {:induction false} RunGrowsHistories(run: seq<State>, k: nat, l: nat)
    requires IsRun(Next, run) && k <= l < |run|
    ensures HistoriesGrow(run[k], run[l])
  {
    hide Next;
    if k == l {
    } else {
      RunGrowsHistories(run, k, l - 1);
      assert Next(run[l - 1], run[l - 1 + 1]);
      StepGrowsHistories(run[l - 1], run[l]);
    }
  }

  /** In every run children are forked in the order in which the requests were submitted: at any time those forked for
      and then those outstanding are all that were submitted, and what was submitted or forked later comes after. */
  lemma ServedInOrder(run: seq<State>, k: nat, l: nat)
    requires IsRun(Next, run) && Starting(run[0]) && k <= l < |run|
    ensures run[l].forked + Ids(Outstanding(run[l])) == run[l].submitted
    ensures HistoriesGrow(run[k], run[l])
  {
    RunKeepsInv(run);
    RunGrowsHistories(run, k, l);
  }

  /** The server blocks exactly when every client that has submitted has its child; otherwise it takes the oldest
      request that has none. */
  lemma ServerBlocksExactly(s: State)
    requires Inv(s) && s.server == Receiving
    ensures Enabled(s, ServerReceives) <==> |s.forked| < |s.submitted|
    ensures |s.forked| < |s.submitted| ==>
      Apply(s, ServerReceives).server.request.clientId == s.submitted[|s.forked|]
  {
    hide SessionOk, RequestsOk, AwaitedOk;
    assert Ids(Outstanding(s)) == s.submitted[|s.forked|..];
  }

  /** A client's submission blocks exactly when the requests that the server has not taken fill the queue, at 304 bytes
      each. */
  lemma SubmitBlocksExactly(s: State, i: nat)
    requires Inv(s) && i < |s.sessions| && s.sessions[i].client.pc == SendRequest
    ensures
      var taken := |s.forked| + if s.server.Forking? then 1 else 0;
      Enabled(s, Submit(i)) <==> 304 * (|s.submitted| - taken + 1) <= s.qbytes
  {
    hide SessionOk, RequestsOk, AwaitedOk;
    assert |Ids(Outstanding(s))| == |s.submitted| - |s.forked|;
  }

  /** A client waits for a message exactly when it has taken all that its child has sent, and takes the oldest one. */
  lemma ReceiveBlocksExactly(s: State, i: nat)
    requires Inv(s) && i < |s.sessions| && Receives(s.sessions[i].client.pc)
    ensures
      var c := s.sessions[i];
      && (Enabled(s, Local(i, ClientAct)) <==> |c.client.got| < |c.child.sent|)
      && (|c.client.got| < |c.child.sent| ==>
            Apply(s, Local(i, ClientAct)).sessions[i].client.resp == c.child.sent[|c.client.got|])
  {
    SessionIsOk(s, i);
    SessionHasQueue(s.disk, s.sessions[i]);
    hide Inv;
  }

  /** A child's send blocks exactly when the bytes sent and not yet taken, and those of the message, exceed the limit.
      */
  lemma SendBlocksExactly(s: State, i: nat, n: nat)
    requires Inv(s) && i < |s.sessions| && Sends(s.sessions[i].child.pc)
    ensures
      var c := s.sessions[i];
      Enabled(s, Local(i, ChildAct(n))) <==>
        |Payload(c.child.sent)| - |Payload(c.client.got)| + |Outgoing(c.child).data| <= s.qbytes
  {
    var c := s.sessions[i];
    SessionIsOk(s, i);
    SessionHasQueue(s.disk, c);
    hide Inv;
    PayloadConcat(c.client.got, c.queue);
    hide Payload, Outgoing;
  }

  // ---------------------------------------------------------------------------------------------
  // No deadlock, and what becomes of the clients

  /** Nothing can go on but a call that fails. */
  ghost predicate Idle(s: State) {
    forall e :: !Fails(e) ==> !Enabled(s, e)
  }

  predicate AllDone(s: State) {
    s.server == Receiving && s.requests == [] && forall i :: 0 <= i < |s.sessions| ==> SessionDone(s.sessions[i])
  }

  lemma ServerProgress(s: State)
    requires Inv(s)
    ensures Outstanding(s) == [] || Enabled(s, ServerReceives) || Enabled(s, ServerForks)
  {
    hide SessionOk;
    if s.server.Forking? {
      assert Outstanding(s)[0] == s.server.request;
    }
  }

  /** No deadlock: an idle service has no request left and every client and child has finished. */
  lemma IdleMeansDone(s: State)
    requires Inv(s) && Idle(s)
    ensures AllDone(s)
  {
    hide SessionOk, CanAct;
    ServerProgress(s);
    assert Outstanding(s) == [];
    forall i | 0 <= i < |s.sessions|
      ensures SessionDone(s.sessions[i])
    {
      IdleSessionIsDone(s, i);
    }
  }

  lemma IdleSessionIsDone(s: State, i: nat)
    requires Inv(s) && Idle(s) && Outstanding(s) == [] && i < |s.sessions|
    ensures SessionDone(s.sessions[i])
  {
    hide SessionOk, SessionDone;
    IdleLeavesOutput(s, i);
    hide CanAct;
    assert !Enabled(s, Local(i, ClientAct));
    forall n: nat
      ensures !CanAct(s.disk, s.qbytes, s.sessions[i], ChildAct(n))
    {
      assert !Enabled(s, Local(i, ChildAct(n)));
    }
    SessionProgress(s.disk, s.qbytes, s.sessions[i]);
    assert !Enabled(s, Submit(i));
  }

  /** Opening and reading the output file never block. */
  lemma IdleLeavesOutput(s: State, i: nat)
    requires Idle(s) && i < |s.sessions|
    ensures !UsesOutput(s.disk, s.sessions[i].child)
  {
    var tail := Tail(s.output, |s.sessions[i].child.taken|);
    assert !Enabled(s, Local(i, OpensOutput(s.outputExists)));
    assert !Enabled(s, Local(i, ReadsOutput(if tail == [] then [] else tail[..1])));
  }

  /** What becomes of a client whose session is over. One whose path is too long asked for nothing. One that was
      refused, and no fixed file ever is, was told so. Every other one has reported its bytes and its messages, one
      for each chunk and one for END; it holds the whole file exactly when no call for it failed at the cost of bytes,
      or, of the output file, all that its child read. */
  predicate Served(disk: Disk, s: Session) {
    var c := s.client;
    if |s.path| > PATH_MAX - 1 then
      c.got == [] && c.written == [] && !c.reported && s.child.pc == NotForked && s.child.sent == []
    else if s.path !in disk || Refused(s.child) then
      && c.got == [Message(FailureMsg, FailureText(s.path))] && c.written == [] && !c.reported
      && !IsFixed(disk, s.path)
    else
      && c.reported && c.totBytes == |c.written|
      && WholeTransfer(s.path, c.got) && c.got[0].kind != FailureMsg && c.numMsgs == |c.got|
      && c.numMsgs - 1 <= c.totBytes <= RESP_MSG_SIZE * (c.numMsgs - 1)
      && (c.written == Source(disk, s.path, s.child) <==> !s.child.cut)
  }

  /** A run that cannot go on, failing calls apart, has served every client, and a client with too long a path never
      had a request anywhere. */
  lemma CompleteRunServesAll(run: seq<State>, i: nat)
    requires IsRun(Next, run) && Starting(run[0]) && Idle(run[|run| - 1]) && i < |run[0].sessions|
    ensures
      var last := run[|run| - 1];
      && AllDone(last) && |last.sessions| == |run[0].sessions|
      && last.sessions[i].path == run[0].sessions[i].path && Served(run[0].disk, last.sessions[i])
    ensures |run[0].sessions[i].path| > PATH_MAX - 1 ==> forall k :: 0 <= k < |run| ==> NoRequestOf(run[k], i)
  {
    hide Next, SessionOk, Idle, Starting, Served, NoRequestOf;
    RunKeepsInv(run);
    IdleMeansDone(run[|run| - 1]);
    DoneMeansServed(run[0].disk, run[|run| - 1].sessions[i]);
    if |run[0].sessions[i].path| > PATH_MAX - 1 {
      forall k | 0 <= k < |run|
        ensures NoRequestOf(run[k], i)
      {
        LongPathAsksNothing(run[k], i);
      }
    }
  }

  predicate NoRequestOf(s: State, i: nat) {
    forall k :: 0 <= k < |Outstanding(s)| ==> Outstanding(s)[k].clientId != i
  }

  lemma LongPathAsksNothing(s: State, i: nat)
    requires Inv(s) && i < |s.sessions| && |s.sessions[i].path| > PATH_MAX - 1
    ensures NoRequestOf(s, i)
  {
    assert SessionOk(s.disk, s.sessions[i]);
    assert !Awaiting(s.sessions[i]);
    hide SessionOk;
  }

  lemma DoneMeansServed(disk: Disk, s: Session)
    requires SessionOk(disk, s) && SessionDone(s)
    ensures Served(disk, s)
  {
    if |s.path| <= PATH_MAX - 1 {
      OkMeansReportOk(disk, s);
      FinalMessageEmptiesQueue(disk, s);
      if s.path !in disk || Refused(s.child) {
        NothingForMissingFile(disk, s);
      }
    }
    hide Payload;
  }

  /** A client whose file will be opened and never changes. */
  predicate Openable(s: State, i: nat)
    requires i < |s.sessions|
  {
    |s.sessions[i].path| <= PATH_MAX - 1 && IsFixed(s.disk, s.sessions[i].path)
  }

  /** No call has failed at the cost of bytes. */
  predicate Uncut(s: State) {
    forall i :: 0 <= i < |s.sessions| ==> !s.sessions[i].child.cut
  }

  lemma FaultlessKeepsUncut(s: State, t: State)
    requires Uncut(s) && Faultless(s, t)
    ensures Uncut(t)
  {
    hide CanAct, FindsOutput;
  }

  /** Total correctness: a complete run without failing calls gives every client whose file can be opened, and never
      changes, the whole file, whatever the other clients ask for. */
  lemma FaultlessRunDelivers(run: seq<State>, i: nat)
    requires IsRun(Faultless, run) && Starting(run[0]) && Idle(run[|run| - 1])
    requires i < |run[0].sessions| && Openable(run[0], i)
    ensures
      var last := run[|run| - 1];
      && i < |last.sessions| && last.sessions[i].client.reported
      && last.sessions[i].client.written == run[0].disk[run[0].sessions[i].path].bytes
  {
    hide Next, Faultless, Starting, Idle;
    UncutAllAlong(run);
    FaultlessIsRun(run);
    CompleteRunServesAll(run, i);
  }

  lemma UncutAllAlong(run: seq<State>)
    requires IsRun(Faultless, run) && Starting(run[0])
    ensures Uncut(run[|run| - 1])
  {
    hide Faultless;
    forall s, t | Uncut(s) && Faultless(s, t)
      ensures Uncut(t)
    {
      FaultlessKeepsUncut(s, t);
    }
    InvariantHolds(Faultless, Uncut, run);
  }

  // ---------------------------------------------------------------------------------------------
  // Termination

  /** No file that a client may receive, and not the output file, is longer than `bound`. */
  predicate Bounded(s: State, bound: nat) {
    && |s.output| <= bound
    && forall i :: 0 <= i < |s.sessions| ==> |Source(s.disk, s.sessions[i].path, s.sessions[i].child)| <= bound
  }

  lemma StepKeepsBounded(s: State, t: State, bound: nat)
    requires Inv(s) && Bounded(s, bound) && Next(s, t)
    ensures Bounded(t, bound)
  {
    hide CanAct, Inv;
    var e :| Enabled(s, e) && t == Apply(s, e);
    if e.Local? {
      SessionIsOk(s, e.i);
      LocalSource(s.disk, s.qbytes, s.sessions[e.i], e.action);
      if e.action == ClientAct {
        WrittenIsBounded(s.disk, s.qbytes, s.sessions[e.i], s.output, bound);
      }
    }
    hide SessionOk, OutputAfter, Do;
  }

  lemma LocalSource(disk: Disk, qbytes: nat, s: Session, a: Action)
    requires SessionOk(disk, s) && CanAct(disk, qbytes, s, a)
    ensures
      var t := Do(disk, qbytes, s, a);
      Source(disk, t.path, t.child) == if a.ReadsOutput? then s.child.taken + a.chunk else Source(disk, s.path, s.child)
  {
    hide Payload, WholeTransfer, ChunksBefore, Recorded, Ended;
  }

  /** A client never writes behind the end of what its child has read. */
  lemma WrittenIsBounded(disk: Disk, qbytes: nat, s: Session, file: seq<byte>, bound: nat)
    requires SessionOk(disk, s) && CanAct(disk, qbytes, s, ClientAct)
    requires |file| <= bound && |Source(disk, s.path, s.child)| <= bound
    ensures |OutputAfter(file, s.client, ClientAct)| <= bound
  {
    OkMeansConserved(disk, s);
    hide Payload, ChildOk, Unsent, Source;
  }

  function RankIn(disk: Disk, bound: nat): Session -> nat {
    (x: Session) => Rank(disk, bound, x)
  }

  function Measure(bound: nat, s: State): nat {
    Sum(RankIn(s.disk, bound), s.sessions) + 2 * |s.requests| + if s.server.Forking? then 1 else 0
  }

  lemma SubmitLowersRank(disk: Disk, bound: nat, s: Session)
    requires s.client.pc == SendRequest
    ensures Rank(disk, bound, Asked(s)) == Rank(disk, bound, s) - 3
  {
  }

  lemma ForkLowersRank(disk: Disk, bound: nat, s: Session, r: Request)
    requires Awaiting(s)
    ensures Rank(disk, bound, s.(child := Fork(s.child, r))) == Rank(disk, bound, s) - 1
  {
  }

  lemma ReadsWithinBound(s: State, bound: nat, i: nat, a: Action)
    requires Inv(s) && Bounded(s, bound) && Enabled(s, Local(i, a))
    ensures a.ReadsOutput? ==> |s.sessions[i].child.taken| + |a.chunk| <= bound
  {
    SessionIsOk(s, i);
    hide Inv;
  }

  lemma StepLowersMeasure(s: State, t: State, bound: nat)
    requires Inv(s) && Bounded(s, bound) && Next(s, t)
    ensures Measure(bound, t) < Measure(bound, s)
  {
    hide Rank, SessionOk, Do, CanAct, Bounded, FindsOutput;
    var e :| Enabled(s, e) && t == Apply(s, e);
    var f := RankIn(s.disk, bound);
    match e
    case Local(i, action) =>
      ReadsWithinBound(s, bound, i, action);
      ActionLowersRank(s.disk, bound, s.qbytes, s.sessions[i], action);
      SumUpdate(f, s.sessions, i, t.sessions[i]);
    case Submit(i) =>
      SubmitLowersRank(s.disk, bound, s.sessions[i]);
      SumUpdate(f, s.sessions, i, t.sessions[i]);
    case ServerReceives =>
    case ServerForks =>
      var id := s.server.request.clientId;
      assert Outstanding(s)[0] == s.server.request;
      ForkLowersRank(s.disk, bound, s.sessions[id], s.server.request);
      SumUpdate(f, s.sessions, id, t.sessions[id]);
  }

  /** Steps that serving a client may take: five for each byte of its file and fourteen more. */
  function CostIn(disk: Disk, bound: nat): Session -> nat {
    (x: Session) => 5 * FileSize(disk, bound, x.path) + 14
  }

  lemma StartMeasure(s: State, bound: nat)
    requires Starting(s)
    ensures Measure(bound, s) == Sum(CostIn(s.disk, bound), s.sessions)
  {
    SumEqual(RankIn(s.disk, bound), CostIn(s.disk, bound), s.sessions);
  }

  /** Every run ends: its number of steps is bounded by the number of clients and the sizes of their files. For a client
      that asks for the output file the longest of the files counts: it never grows beyond them. */
  lemma RunTerminates(run: seq<State>, bound: nat)
    requires IsRun(Next, run) && Starting(run[0]) && Bounded(run[0], bound)
    ensures |run| - 1 <= Sum(CostIn(run[0].disk, bound), run[0].sessions)
  {
    hide Inv, Next, Measure, Starting, Bounded;
    var inv := (s: State) => Inv(s) && Bounded(s, bound);
    var measure := (s: State) => Measure(bound, s);
    forall s, t | inv(s) && Next(s, t)
      ensures inv(t) && measure(t) < measure(s)
    {
      StepKeepsInv(s, t);
      StepKeepsBounded(s, t, bound);
      StepLowersMeasure(s, t, bound);
    }
    StartInv(run[0]);
    assert Inductive(Next, inv) && Lowers(Next, inv, measure);
    RunIsBounded(Next, inv, measure, run);
    StartMeasure(run[0], bound);
  }
}
