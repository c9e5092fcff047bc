/** FIFO sequence-number server: clients write requests into one shared FIFO, the server answers each through the
    client's own FIFO. Opening a FIFO blocks until its other end is opened, so every reply needs a rendezvous. Clients
    are numbered, and a client's number is its process id. */
module SeqServer {
  import opened Runs
  import opened Sums
  import opened SeqRanges

  datatype Request = Request(pid: nat, seqLen: nat)

  /** `OpenRead` and `OpenReply` enter a blocking open; the program is `...Blocked` until the other end is there. */
  datatype ServerPc =
    | OpenRead | OpenReadBlocked | OpenDummy | ReadRequest
    | OpenReply | OpenReplyBlocked | WriteReply | CloseReply | Advance

  datatype ClientPc =
    | MakeFifo | OpenServer | OpenServerBlocked | WriteRequest
    | OpenOwn | OpenOwnBlocked | ReadReply | RemoveFifo | Gone

  /** A client, its own FIFO and what is in it. `reader` and `writer` say that an open of that end has been entered,
      `writeEnd` that the server holds the write end now; `got` is the number read, if any. */
  datatype Client = Client(
    pc: ClientPc, seqLen: nat, fifo: bool, reader: bool, writer: bool, writeEnd: bool, box: seq<nat>, got: seq<nat>,
    killed: bool)

  /** `written` records whose requests have been written into the server's FIFO, in order, and `granted` every request
      the server has taken, with the number it answers. */
  datatype State = State(
    capacity: nat,
    server: ServerPc, req: Request, seqNum: nat, serverReads: bool, writerSeen: bool, dummy: bool, eofs: nat,
    failed: nat,
    requests: seq<Request>, written: seq<nat>, granted: seq<Grant>, clients: seq<Client>)

  datatype Event = ServerStep | ClientStep(i: nat)

  /** The client has the request FIFO open for writing, or is opening it. */
  predicate HasServerFifo(c: Client) {
    c.pc in {OpenServerBlocked, WriteRequest, OpenOwn, OpenOwnBlocked, ReadReply, RemoveFifo}
  }

  /** Some process holds a write end of the request FIFO, so that reading it empty blocks instead of meeting its end. */
  predicate WriteEndOpen(s: State) {
    s.dummy || exists i :: 0 <= i < |s.clients| && HasServerFifo(s.clients[i])
  }

  predicate ServerEnabled(s: State) {
    match s.server
    case OpenReadBlocked => s.writerSeen
    case ReadRequest => s.requests != [] || !WriteEndOpen(s)
    case OpenReplyBlocked => s.req.pid < |s.clients| && s.clients[s.req.pid].reader
    case WriteReply => s.req.pid < |s.clients|
    case CloseReply => s.req.pid < |s.clients|
    case _ => true
  }

  predicate ClientEnabled(s: State, i: nat) {
    && i < |s.clients|
    && var c := s.clients[i];
    match c.pc
    case OpenServerBlocked => s.serverReads
    case WriteRequest => |s.requests| < s.capacity
    case OpenOwnBlocked => c.writer
    case ReadReply => c.box != [] || !c.writeEnd
    case Gone => false
    case _ => true
  }

  predicate Enabled(s: State, e: Event) {
    match e
    case ServerStep => ServerEnabled(s)
    case ClientStep(i) => ClientEnabled(s, i)
  }

  /** The client has the read end of its FIFO open, or is opening it, and takes an answer. */
  predicate HoldsReadEnd(c: Client) {
    c.pc in {OpenOwnBlocked, ReadReply}
  }

  /** The server has entered the open of this client's FIFO, answered there, and closed it again. */
  function Opened(c: Client): Client {
    c.(writer := true, writeEnd := true)
  }

  function Answered(c: Client, n: nat): Client {
    c.(box := c.box + [n])
  }

  function Closed(c: Client): Client {
    c.(writeEnd := false)
  }

  function ServerApply(s: State): State
    requires ServerEnabled(s)
  {
    match s.server
    case OpenRead => s.(serverReads := true, server := OpenReadBlocked)
    case OpenReadBlocked => s.(server := OpenDummy)
    case OpenDummy => s.(dummy := true, server := ReadRequest)
    case ReadRequest =>
      if s.requests == [] then s.(eofs := s.eofs + 1)
      else
        var r := s.requests[0];
        s.(req := r, requests := s.requests[1..], granted := s.granted + [Grant(r.pid, s.seqNum, r.seqLen)],
           server := OpenReply)
    case OpenReply =>
      if s.req.pid < |s.clients| && s.clients[s.req.pid].fifo then
        s.(clients := s.clients[s.req.pid := Opened(s.clients[s.req.pid])], server := OpenReplyBlocked)
      else s.(failed := s.failed + 1, server := Advance)
    case OpenReplyBlocked => s.(server := WriteReply)
    case WriteReply =>
      if HoldsReadEnd(s.clients[s.req.pid]) then
        s.(clients := s.clients[s.req.pid := Answered(s.clients[s.req.pid], s.seqNum)], server := CloseReply)
      else s.(failed := s.failed + 1, server := CloseReply)
    case CloseReply =>
      s.(clients := s.clients[s.req.pid := Closed(s.clients[s.req.pid])], server := Advance)
    case Advance => s.(seqNum := s.seqNum + s.req.seqLen, server := ReadRequest)
  }

  /** What the client's next statement does to the client itself and to its own FIFO. */
  function ClientMove(c: Client): Client
    requires c.pc != Gone
  {
    match c.pc
    case MakeFifo => c.(fifo := true, pc := OpenServer)
    case OpenServer => c.(pc := OpenServerBlocked)
    case OpenServerBlocked => c.(pc := WriteRequest)
    case WriteRequest => c.(pc := OpenOwn)
    case OpenOwn => c.(reader := true, pc := OpenOwnBlocked)
    case OpenOwnBlocked => c.(pc := ReadReply)
    case ReadReply =>
      if c.box == [] then c.(pc := RemoveFifo) else c.(got := [c.box[0]], box := c.box[1..], pc := RemoveFifo)
    case RemoveFifo => c.(fifo := false, pc := Gone)
  }

  function ClientApply(s: State, i: nat): State
    requires ClientEnabled(s, i)
  {
    var c := s.clients[i];
    s.(clients := s.clients[i := ClientMove(c)],
       writerSeen := s.writerSeen || c.pc == OpenServer,
       requests := if c.pc == WriteRequest then s.requests + [Request(i, c.seqLen)] else s.requests,
       written := if c.pc == WriteRequest then s.written + [i] else s.written)
  }

  function Apply(s: State, e: Event): State
    requires Enabled(s, e)
  {
    match e
    case ServerStep => ServerApply(s)
    case ClientStep(i) => ClientApply(s, i)
  }

  ghost predicate Next(s: State, t: State) {
    exists e :: Enabled(s, e) && t == Apply(s, e)
  }

  /** A killed client: its descriptors are closed, the name of its FIFO stays. The server's open returns if both ends
      have been entered before. */
  function Killed(c: Client): Client {
    c.(pc := Gone, killed := true, reader := c.reader && c.writer)
  }

  /** A step of the service, or the death of a client at whatever point of its program. A reply that finds no reader
      fails, and the server goes on. */
  ghost predicate Faulty(s: State, t: State) {
    || Next(s, t)
    || exists i :: 0 <= i < |s.clients| && s.clients[i].pc != Gone
         && t == s.(clients := s.clients[i := Killed(s.clients[i])])
  }

  /** The request FIFO exists; the server is about to open it and every client to make its own. */
  predicate Starting(s: State) {
    && s.capacity >= 1 && s.server == OpenRead && s.seqNum == 0
    && !s.serverReads && !s.writerSeen && !s.dummy && s.eofs == 0 && s.failed == 0
    && s.requests == [] && s.written == [] && s.granted == []
    && forall i :: 0 <= i < |s.clients| ==> AtStart(s.clients[i])
  }

  predicate AtStart(c: Client) {
    c.pc == MakeFifo && !c.fifo && !c.reader && !c.writer && !c.writeEnd && c.box == [] && c.got == [] && !c.killed
  }

  // ---------------------------------------------------------------------------------------------
  // The invariant

  /** The server has taken a request and not yet answered it. */
  predicate Serving(s: State) {
    s.server in {OpenReply, OpenReplyBlocked, WriteReply}
  }

  function Outstanding(s: State): seq<Request> {
    (if Serving(s) then [s.req] else []) + s.requests
  }

  /** The client has written its request and has no answer yet. */
  predicate Awaiting(c: Client) {
    c.pc in {OpenOwn, OpenOwnBlocked, ReadReply} && c.box == []
  }

  predicate Asked(c: Client) {
    c.pc !in {MakeFifo, OpenServer, OpenServerBlocked, WriteRequest}
  }

  predicate ClientOk(c: Client) {
    if c.killed then c.pc == Gone
    else
      && (c.fifo <==> c.pc !in {MakeFifo, Gone})
      && (c.reader <==> c.pc in {OpenOwnBlocked, ReadReply, RemoveFifo, Gone})
      && (!Asked(c) ==> c.box == [] && !c.writer)
      && (c.pc == ReadReply ==> c.writer)
      && |c.box| <= 1 && (c.box != [] ==> c.writer && c.pc in {OpenOwnBlocked, ReadReply})
      && (if c.pc in {RemoveFifo, Gone} then |c.got| == 1 else c.got == [])
  }

  predicate ServerOk(s: State) {
    && s.capacity >= 1 && s.eofs == 0
    && (s.serverReads <==> s.server != OpenRead)
    && (s.dummy <==> s.server !in {OpenRead, OpenReadBlocked, OpenDummy})
    && (!s.writerSeen ==>
          && s.server in {OpenRead, OpenReadBlocked} && s.requests == []
          && forall i :: 0 <= i < |s.clients| ==> s.clients[i].pc in {MakeFifo, OpenServer, Gone})
  }

  /** Each outstanding request is the only one of its client, which awaits its answer or is dead. */
  predicate RequestsOk(clients: seq<Client>, rs: seq<Request>) {
    && (forall k :: 0 <= k < |rs| ==>
          && rs[k].pid < |clients| && (Awaiting(clients[rs[k].pid]) || clients[rs[k].pid].killed)
          && rs[k].seqLen == clients[rs[k].pid].seqLen)
    && (forall k, l :: 0 <= k < l < |rs| ==> rs[k].pid != rs[l].pid)
  }

  predicate AwaitedOk(clients: seq<Client>, rs: seq<Request>) {
    forall i :: 0 <= i < |clients| && Awaiting(clients[i]) ==> exists k :: 0 <= k < |rs| && rs[k].pid == i
  }

  /** The server's side of the rendezvous with the client it is serving. */
  predicate RendezvousOk(s: State) {
    && (s.server in {OpenReplyBlocked, WriteReply} ==>
          s.req.pid < |s.clients| && s.clients[s.req.pid].writer && s.clients[s.req.pid].writeEnd)
    && (s.server == WriteReply ==> s.clients[s.req.pid].reader)
    && (s.server == CloseReply ==>
          s.req.pid < |s.clients| && Asked(s.clients[s.req.pid]) && !Awaiting(s.clients[s.req.pid]))
    && (forall i :: 0 <= i < |s.clients| && Awaiting(s.clients[i]) && s.clients[i].writer ==>
          s.server in {OpenReplyBlocked, WriteReply} && s.req.pid == i)
    && (forall i :: 0 <= i < |s.clients| && s.clients[i].writeEnd ==>
          s.server in {OpenReplyBlocked, WriteReply, CloseReply} && s.req.pid == i)
  }

  /** A number has been taken out of the counter for the request in hand but not yet added. */
  predicate InHand(s: State) {
    s.server in {OpenReply, OpenReplyBlocked, WriteReply, CloseReply, Advance}
  }

  predicate NumbersOk(s: State) {
    && Tiled(s.granted)
    && Total(s.granted) == s.seqNum + (if InHand(s) then s.req.seqLen else 0)
    && (InHand(s) ==> s.granted != [] && s.granted[|s.granted| - 1] == Grant(s.req.pid, s.seqNum, s.req.seqLen))
  }

  /** Every grant belongs to a client that has asked; only the last one may still be unanswered. */
  predicate GrantEntriesOk(s: State) {
    forall k :: 0 <= k < |s.granted| ==>
      var g := s.granted[k];
      && g.pid < |s.clients| && Asked(s.clients[g.pid]) && g.len == s.clients[g.pid].seqLen
      && (Awaiting(s.clients[g.pid]) ==> Serving(s) && k == |s.granted| - 1)
  }

  /** No two grants, and no grant and request, belong to the same client. */
  predicate GrantsDistinct(s: State) {
    && (forall k, l :: 0 <= k < l < |s.granted| ==> s.granted[k].pid != s.granted[l].pid)
    && (forall k, l :: 0 <= k < |s.granted| && 0 <= l < |s.requests| ==> s.granted[k].pid != s.requests[l].pid)
  }

  predicate GrantsOk(s: State) {
    GrantEntriesOk(s) && GrantsDistinct(s)
  }

  predicate IsGranted(gs: seq<Grant>, pid: nat, start: nat) {
    exists k :: 0 <= k < |gs| && gs[k].pid == pid && gs[k].start == start
  }

  /** What a client finds in its FIFO, or has read, is the number it was granted. */
  predicate AnswersOk(s: State) {
    forall i :: 0 <= i < |s.clients| ==>
      forall v :: v in s.clients[i].box + s.clients[i].got ==> IsGranted(s.granted, i, v)
  }

  function NotAsked(c: Client): nat {
    if Asked(c) then 0 else 1
  }

  predicate CountOk(s: State) {
    Sum(NotAsked, s.clients) + |s.requests| + |s.granted| == |s.clients|
  }

  predicate ClientsOk(s: State) {
    forall i :: 0 <= i < |s.clients| ==> ClientOk(s.clients[i])
  }

  predicate QueueOk(s: State) {
    RequestsOk(s.clients, Outstanding(s)) && AwaitedOk(s.clients, Outstanding(s))
  }

  function GrantPids(gs: seq<Grant>): seq<nat> {
    seq(|gs|, k requires 0 <= k < |gs| => gs[k].pid)
  }

  function RequestPids(rs: seq<Request>): seq<nat> {
    seq(|rs|, k requires 0 <= k < |rs| => rs[k].pid)
  }

  /** First come, first served: requests are taken in the order in which they were written, and those in the FIFO are
      the ones next in turn. */
  predicate FirstCome(s: State) {
    GrantPids(s.granted) + RequestPids(s.requests) == s.written
  }

  /** What deaths cannot spoil. */
  predicate Sound(s: State) {
    && FirstCome(s)
    && ServerOk(s) && ClientsOk(s) && QueueOk(s) && RendezvousOk(s)
    && NumbersOk(s) && GrantsOk(s) && AnswersOk(s)
  }

  /** Nobody has died, and so no reply has failed. */
  predicate Healthy(s: State) {
    s.failed == 0 && forall i :: 0 <= i < |s.clients| ==> !s.clients[i].killed
  }

  predicate Inv(s: State) {
    Sound(s) && Healthy(s) && CountOk(s)
  }

  lemma StartInv(s: State)
    requires Starting(s)
    ensures Inv(s)
  {
    hide AtStart, ClientOk, Awaiting, Asked, Sum;
    forall i | 0 <= i < |s.clients|
      ensures ClientOk(s.clients[i]) && !Awaiting(s.clients[i]) && !Asked(s.clients[i])
      ensures s.clients[i].pc == MakeFifo && s.clients[i].box + s.clients[i].got == [] && !s.clients[i].writeEnd
      ensures !s.clients[i].killed
    {
      StartClientOk(s.clients[i]);
    }
    CountAll(s.clients);
  }

  lemma StartClientOk(c: Client)
    requires AtStart(c)
    ensures ClientOk(c) && !Awaiting(c) && !Asked(c) && c.pc == MakeFifo && c.box + c.got == [] && !c.writeEnd
    ensures !c.killed
  {
  }

  lemma {:induction false} CountAll(clients: seq<Client>)
    requires forall i :: 0 <= i < |clients| ==> !Asked(clients[i])
    ensures Sum(NotAsked, clients) == |clients|
  {
    if clients == [] {
    } else {
      assert forall i :: 0 <= i < |clients| - 1 ==> clients[1..][i] == clients[i + 1];
      CountAll(clients[1..]);
    }
  }

  /** The two clients stand in the same relation to the request queue and the ledger of grants. */
  predicate Alike(c: Client, d: Client) {
    && Awaiting(c) == Awaiting(d) && Asked(c) == Asked(d) && c.seqLen == d.seqLen && c.killed == d.killed
    && (forall v :: v in d.box + d.got ==> v in c.box + c.got)
  }

  lemma ClientMoveOk(c: Client)
    requires ClientOk(c) && c.pc != Gone && c.pc != WriteRequest && (c.pc == OpenOwnBlocked ==> c.writer)
    requires c.pc == ReadReply ==> c.box != []
    ensures ClientOk(ClientMove(c)) && Alike(c, ClientMove(c)) && ClientMove(c).writer == c.writer
    ensures ClientMove(c).writeEnd == c.writeEnd && (c.reader ==> ClientMove(c).reader)
    ensures ClientMove(c).pc in {MakeFifo, OpenServer} ==> c.pc == MakeFifo
  {
  }

  lemma ClientMoveAsks(c: Client)
    requires ClientOk(c) && c.pc == WriteRequest
    ensures ClientOk(ClientMove(c)) && Awaiting(ClientMove(c)) && !Awaiting(c) && !Asked(c) && Asked(ClientMove(c))
    ensures ClientMove(c) == c.(pc := OpenOwn) && !c.writer && c.box + c.got == [] && !c.killed
  {
  }

  /** Replacing a client by one alike keeps the queue as it was. */
  lemma ReplaceKeepsQueue(clients: seq<Client>, rs: seq<Request>, i: nat, d: Client)
    requires RequestsOk(clients, rs) && AwaitedOk(clients, rs) && i < |clients| && Alike(clients[i], d)
    ensures RequestsOk(clients[i := d], rs) && AwaitedOk(clients[i := d], rs)
  {
  }

  lemma ReplaceKeepsGrants(s: State, t: State, i: nat, d: Client)
    requires GrantsOk(s) && i < |s.clients| && t.clients == s.clients[i := d] && t.granted == s.granted
    requires Alike(s.clients[i], d) && (Serving(s) ==> Serving(t)) && t.requests == s.requests
    ensures GrantsOk(t)
  {
  }

  lemma ReplaceKeepsAnswers(s: State, t: State, i: nat, d: Client)
    requires AnswersOk(s) && i < |s.clients| && t.clients == s.clients[i := d] && t.granted == s.granted
    requires Alike(s.clients[i], d)
    ensures AnswersOk(t)
  {
    hide IsGranted;
  }

  lemma ReplaceAlike(s: State, t: State, i: nat, d: Client)
    requires QueueOk(s) && GrantsOk(s) && AnswersOk(s)
    requires i < |s.clients| && Alike(s.clients[i], d) && t.clients == s.clients[i := d]
    requires t.requests == s.requests && t.granted == s.granted && Outstanding(t) == Outstanding(s)
    requires Serving(s) ==> Serving(t)
    ensures QueueOk(t) && GrantsOk(t) && AnswersOk(t)
  {
    hide RequestsOk, AwaitedOk, GrantsOk, AnswersOk, Alike, Outstanding;
    ReplaceKeepsQueue(s.clients, Outstanding(s), i, d);
    ReplaceKeepsGrants(s, t, i, d);
    ReplaceKeepsAnswers(s, t, i, d);
  }

  predicate StartingUp(s: State) {
    s.server in {OpenRead, OpenReadBlocked, OpenDummy}
  }

  /** The server goes on serving after having changed one client at most. */
  lemma ServingKeepsControl(s: State, t: State, i: nat, d: Client)
    requires ServerOk(s) && ClientsOk(s) && !StartingUp(s) && !StartingUp(t)
    requires i < |s.clients| && ClientOk(d) && t.clients == s.clients[i := d] && d.pc == s.clients[i].pc
    requires t.capacity == s.capacity && t.serverReads == s.serverReads && t.writerSeen == s.writerSeen
    requires t.dummy == s.dummy && t.eofs == s.eofs && (t.writerSeen || t.requests == [])
    ensures ServerOk(t) && ClientsOk(t)
  {
    hide ClientOk;
  }

  lemma NumbersFrame(s: State, t: State)
    requires NumbersOk(s) && t.granted == s.granted && t.seqNum == s.seqNum && t.req == s.req && InHand(t) == InHand(s)
    ensures NumbersOk(t)
  {
  }

  /** A client that waits in its FIFO never meets its end: the server holds the write end until it has answered. */
  lemma NoEmptyReply(s: State, i: nat)
    requires ClientsOk(s) && RendezvousOk(s) && ClientEnabled(s, i) && s.clients[i].pc == ReadReply
    ensures s.clients[i].box != []
  {
    assert ClientOk(s.clients[i]);
  }

  lemma ClientKeepsSound(s: State, i: nat)
    requires Sound(s) && ClientEnabled(s, i) && s.clients[i].pc != WriteRequest
    ensures Sound(ClientApply(s, i))
  {
    var t := ClientApply(s, i);
    var d := ClientMove(s.clients[i]);
    if s.clients[i].pc == ReadReply {
      NoEmptyReply(s, i);
    }
    assert ClientOk(s.clients[i]);
    ClientMoveOk(s.clients[i]);
    ClientKeepsControl(s, i);
    hide ClientMove, QueueOk, GrantsOk, AnswersOk, ClientOk, ServerOk, ClientsOk;
    assert Outstanding(t) == Outstanding(s);
    ReplaceAlike(s, t, i, d);
    NumbersFrame(s, t);
    ReplaceKeepsRendezvous(s, t, i, d);
    hide NumbersOk, RendezvousOk, Alike;
  }

  lemma ClientKeepsControl(s: State, i: nat)
    requires ServerOk(s) && ClientsOk(s) && ClientEnabled(s, i) && s.clients[i].pc != WriteRequest
    requires ClientOk(ClientMove(s.clients[i]))
    ensures ServerOk(ClientApply(s, i)) && ClientsOk(ClientApply(s, i))
  {
    hide ClientOk;
  }

  lemma ReplaceKeepsRendezvous(s: State, t: State, i: nat, d: Client)
    requires RendezvousOk(s) && i < |s.clients| && t.clients == s.clients[i := d]
    requires t.server == s.server && t.req == s.req
    requires Alike(s.clients[i], d) && d.writer == s.clients[i].writer && d.writeEnd == s.clients[i].writeEnd
    requires s.clients[i].reader ==> d.reader
    ensures RendezvousOk(t)
  {
    AlikeAwaits(s.clients[i], d);
    hide Alike, Asked, Awaiting;
  }

  lemma AlikeAwaits(c: Client, d: Client)
    requires Alike(c, d)
    ensures Awaiting(c) == Awaiting(d) && Asked(c) == Asked(d)
  {
  }

  lemma AppendKeepsQueue(clients: seq<Client>, rs: seq<Request>, i: nat, d: Client)
    requires RequestsOk(clients, rs) && AwaitedOk(clients, rs) && i < |clients|
    requires !Awaiting(clients[i]) && !clients[i].killed && Awaiting(d) && d.seqLen == clients[i].seqLen
    ensures RequestsOk(clients[i := d], rs + [Request(i, d.seqLen)])
    ensures AwaitedOk(clients[i := d], rs + [Request(i, d.seqLen)])
  {
    hide Awaiting;
    var all := rs + [Request(i, d.seqLen)];
    assert all[|rs|].pid == i;
    forall j | 0 <= j < |clients| && j != i && Awaiting(clients[j])
      ensures exists k :: 0 <= k < |all| && all[k].pid == j
    {
      var k :| 0 <= k < |rs| && rs[k].pid == j;
      assert all[k].pid == j;
    }
  }

  lemma WriteRequestKeepsGrants(s: State, i: nat)
    requires GrantsOk(s) && AnswersOk(s)
    requires ClientEnabled(s, i) && s.clients[i].pc == WriteRequest && ClientOk(s.clients[i])
    ensures GrantsOk(ClientApply(s, i)) && AnswersOk(ClientApply(s, i))
  {
    var t := ClientApply(s, i);
    ClientMoveAsks(s.clients[i]);
    hide IsGranted, ClientOk, Awaiting;
    assert forall k :: 0 <= k < |s.granted| ==> s.granted[k].pid != i;
  }

  lemma AskKeepsRendezvous(s: State, t: State, i: nat)
    requires RendezvousOk(s) && i < |s.clients| && t.clients == s.clients[i := s.clients[i].(pc := OpenOwn)]
    requires t.server == s.server && t.req == s.req && !s.clients[i].writer && s.clients[i].pc == WriteRequest
    ensures RendezvousOk(t)
  {
  }

  lemma AskKeepsControl(s: State, i: nat)
    requires ServerOk(s) && ClientsOk(s) && ClientEnabled(s, i) && s.clients[i].pc == WriteRequest
    ensures ServerOk(ClientApply(s, i)) && ClientsOk(ClientApply(s, i))
  {
    assert ClientOk(s.clients[i]);
    ClientMoveAsks(s.clients[i]);
    hide ClientOk;
  }

  lemma WriteRequestKeepsSound(s: State, i: nat)
    requires Sound(s) && ClientEnabled(s, i) && s.clients[i].pc == WriteRequest
    ensures Sound(ClientApply(s, i))
  {
    var t := ClientApply(s, i);
    assert ClientOk(s.clients[i]);
    ClientMoveAsks(s.clients[i]);
    AskKeepsControl(s, i);
    WriteKeepsOrder(s, i);
    hide FirstCome;
    hide GrantsOk, AnswersOk, NumbersOk, RequestsOk, AwaitedOk, RendezvousOk, ClientsOk, ServerOk;
    hide ClientOk, ClientMove, Awaiting;
    assert Outstanding(t) == Outstanding(s) + [Request(i, s.clients[i].seqLen)];
    AppendKeepsQueue(s.clients, Outstanding(s), i, t.clients[i]);
    WriteRequestKeepsGrants(s, i);
    NumbersFrame(s, t);
    AskKeepsRendezvous(s, t, i);
  }

  lemma WriteKeepsOrder(s: State, i: nat)
    requires FirstCome(s) && ClientEnabled(s, i) && s.clients[i].pc == WriteRequest
    ensures FirstCome(ClientApply(s, i))
  {
    var t := ClientApply(s, i);
    assert RequestPids(t.requests) == RequestPids(s.requests) + [i];
  }

  lemma TakeKeepsNumbers(s: State)
    requires NumbersOk(s) && ServerEnabled(s) && s.server == ReadRequest && s.requests != []
    ensures NumbersOk(ServerApply(s))
  {
    var r := s.requests[0];
    TiledAppend(s.granted, Grant(r.pid, s.seqNum, r.seqLen));
  }

  /** Whoever has an outstanding request has asked. */
  lemma OutstandingAsked(s: State, k: nat)
    requires ClientsOk(s) && QueueOk(s) && k < |Outstanding(s)|
    ensures
      var r := Outstanding(s)[k];
      r.pid < |s.clients| && Asked(s.clients[r.pid]) && r.seqLen == s.clients[r.pid].seqLen
  {
    assert ClientOk(s.clients[Outstanding(s)[k].pid]);
    hide AwaitedOk;
  }

  lemma TakeKeepsGrants(s: State)
    requires ClientsOk(s) && QueueOk(s) && GrantsOk(s)
    requires ServerEnabled(s) && s.server == ReadRequest && s.requests != []
    ensures GrantsOk(ServerApply(s))
  {
    hide ClientsOk, GrantEntriesOk, GrantsDistinct, AwaitedOk;
    assert Outstanding(s) == s.requests;
    OutstandingAsked(s, 0);
    TakeKeepsEntries(s);
    TakeKeepsDistinct(s);
  }

  lemma TakeKeepsEntries(s: State)
    requires GrantEntriesOk(s) && ServerEnabled(s) && s.server == ReadRequest && s.requests != []
    requires s.requests[0].pid < |s.clients| && Asked(s.clients[s.requests[0].pid])
    requires s.requests[0].seqLen == s.clients[s.requests[0].pid].seqLen
    ensures GrantEntriesOk(ServerApply(s))
  {
    hide Awaiting, Asked, WriteEndOpen;
    assert forall k :: 0 <= k < |s.granted| ==> ServerApply(s).granted[k] == s.granted[k];
  }

  lemma TakeKeepsDistinct(s: State)
    requires GrantsDistinct(s) && ServerEnabled(s) && s.server == ReadRequest && s.requests != []
    requires forall k, l :: 0 <= k < l < |s.requests| ==> s.requests[k].pid != s.requests[l].pid
    ensures GrantsDistinct(ServerApply(s))
  {
    hide WriteEndOpen;
    var t := ServerApply(s);
    assert forall k :: 0 <= k < |s.granted| ==> t.granted[k] == s.granted[k];
    assert forall k :: 0 <= k < |t.requests| ==> t.requests[k] == s.requests[k + 1];
  }

  lemma TakeKeepsAnswers(s: State)
    requires AnswersOk(s) && ServerEnabled(s) && s.server == ReadRequest && s.requests != []
    ensures AnswersOk(ServerApply(s))
  {
    hide IsGranted;
    var t := ServerApply(s);
    forall i, v | 0 <= i < |t.clients| && v in t.clients[i].box + t.clients[i].got
      ensures IsGranted(t.granted, i, v)
    {
      GrantedStays(s.granted, t.granted[|s.granted|], i, v);
    }
  }

  lemma TakeKeepsSound(s: State)
    requires Sound(s) && ServerEnabled(s) && s.server == ReadRequest
    ensures s.requests != [] && Sound(ServerApply(s))
  {
    hide NumbersOk, GrantsOk, AnswersOk, RequestsOk, AwaitedOk, ClientOk, Awaiting;
    assert s.dummy;
    TakeKeepsNumbers(s);
    TakeKeepsGrants(s);
    TakeKeepsAnswers(s);
    TakeKeepsOrder(s);
    hide FirstCome;
    assert Outstanding(ServerApply(s)) == Outstanding(s);
  }

  lemma TakeKeepsOrder(s: State)
    requires FirstCome(s) && ServerEnabled(s) && s.server == ReadRequest && s.requests != []
    ensures FirstCome(ServerApply(s))
  {
    hide WriteEndOpen;
    var t := ServerApply(s);
    assert GrantPids(t.granted) == GrantPids(s.granted) + [s.requests[0].pid];
    assert RequestPids(s.requests) == [s.requests[0].pid] + RequestPids(t.requests);
  }

  lemma GrantedStays(gs: seq<Grant>, g: Grant, pid: nat, start: nat)
    requires IsGranted(gs, pid, start)
    ensures IsGranted(gs + [g], pid, start)
  {
    var k :| 0 <= k < |gs| && gs[k].pid == pid && gs[k].start == start;
    assert (gs + [g])[k] == gs[k];
  }

  lemma OpenedOk(c: Client)
    requires ClientOk(c) && Asked(c)
    ensures ClientOk(Opened(c)) && Alike(c, Opened(c))
  {
  }

  lemma OpenReplyKeepsSound(s: State)
    requires Sound(s) && ServerEnabled(s) && s.server == OpenReply
    ensures Sound(ServerApply(s))
  {
    var t := ServerApply(s);
    assert Outstanding(s)[0] == s.req;
    OutstandingAsked(s, 0);
    var c := s.clients[s.req.pid];
    assert ClientOk(c);
    if c.fifo {
      OpenedOk(c);
      hide ClientOk, ClientsOk, ServerOk, QueueOk, GrantsOk, AnswersOk, NumbersOk, RendezvousOk, Alike;
      assert Outstanding(t) == Outstanding(s);
      OpenSeesWriter(s);
      ServingKeepsControl(s, t, s.req.pid, Opened(c));
      ReplaceAlike(s, t, s.req.pid, Opened(c));
      NumbersFrame(s, t);
      OpenKeepsRendezvous(s, t);
    } else {
      NoFifoIsNotAwaiting(c);
      DropKeepsSound(s, t);
    }
  }

  lemma NoFifoIsNotAwaiting(c: Client)
    requires ClientOk(c) && !c.fifo
    ensures !Awaiting(c)
  {
  }

  lemma OpenSeesWriter(s: State)
    requires ServerOk(s) && !StartingUp(s)
    ensures s.writerSeen
  {
  }

  /** The server gives up the request in its hands, whose client does not await an answer any more. */
  lemma DropKeepsSound(s: State, t: State)
    requires Sound(s) && Serving(s) && !StartingUp(t) && !Serving(t) && InHand(t)
    requires s.req.pid < |s.clients| && !Awaiting(s.clients[s.req.pid]) && Asked(s.clients[s.req.pid])
    requires t == s.(server := t.server, failed := t.failed) && t.server in {CloseReply, Advance}
    requires t.server == Advance ==> s.server == OpenReply
    ensures Sound(t)
  {
    var c := s.clients[s.req.pid];
    hide ServerOk, ClientsOk, RequestsOk, AwaitedOk, NumbersOk, GrantsOk, AnswersOk, ClientOk, Awaiting, Asked;
    assert s.clients == s.clients[s.req.pid := c] && Outstanding(t) == Outstanding(s)[1..];
    RemoveKeepsQueue(s.clients, Outstanding(s), c);
    DropKeepsControl(s, t);
    NumbersFrame(s, t);
    AnswerKeepsGrants(s, t, c);
    FrameKeepsAnswers(s, t);
    DropKeepsRendezvous(s, t);
  }

  lemma DropKeepsControl(s: State, t: State)
    requires ServerOk(s) && ClientsOk(s) && !StartingUp(s) && !StartingUp(t)
    requires t == s.(server := t.server, failed := t.failed)
    ensures ServerOk(t) && ClientsOk(t)
  {
    hide ClientOk;
  }

  lemma FrameKeepsAnswers(s: State, t: State)
    requires AnswersOk(s) && t.clients == s.clients && t.granted == s.granted
    ensures AnswersOk(t)
  {
    hide IsGranted;
  }

  lemma DropKeepsRendezvous(s: State, t: State)
    requires RendezvousOk(s) && Serving(s) && t.server in {CloseReply, Advance} && t.req == s.req
    requires t.clients == s.clients && s.req.pid < |s.clients|
    requires !Awaiting(s.clients[s.req.pid]) && Asked(s.clients[s.req.pid])
    requires t.server == Advance ==> s.server == OpenReply
    ensures RendezvousOk(t)
  {
    hide Awaiting, Asked;
  }

  lemma OpenKeepsRendezvous(s: State, t: State)
    requires RendezvousOk(s) && s.server == OpenReply && t.server == OpenReplyBlocked && t.req == s.req
    requires s.req.pid < |s.clients| && t.clients == s.clients[s.req.pid := Opened(s.clients[s.req.pid])]
    ensures RendezvousOk(t)
  {
    hide Asked;
  }

  lemma RendezvousKeepsSound(s: State)
    requires Sound(s) && ServerEnabled(s) && s.server == OpenReplyBlocked
    ensures Sound(ServerApply(s))
  {
    var t := ServerApply(s);
    var c := s.clients[s.req.pid];
    hide ClientOk, ServerOk, QueueOk, GrantsOk, AnswersOk, NumbersOk, Awaiting, Asked;
    assert t.clients == s.clients[s.req.pid := c] && Outstanding(t) == Outstanding(s);
    assert ClientOk(c);
    hide ClientsOk;
    OpenSeesWriter(s);
    ServingKeepsControl(s, t, s.req.pid, c);
    ReplaceAlike(s, t, s.req.pid, c);
    NumbersFrame(s, t);
  }

  lemma RemoveKeepsQueue(clients: seq<Client>, rs: seq<Request>, d: Client)
    requires rs != [] && RequestsOk(clients, rs) && AwaitedOk(clients, rs) && !Awaiting(d)
    ensures rs[0].pid < |clients|
    ensures RequestsOk(clients[rs[0].pid := d], rs[1..]) && AwaitedOk(clients[rs[0].pid := d], rs[1..])
  {
    hide Awaiting;
    var rest := rs[1..];
    assert forall k :: 0 <= k < |rest| ==> rest[k] == rs[k + 1];
    forall j | 0 <= j < |clients| && j != rs[0].pid && Awaiting(clients[j])
      ensures exists k :: 0 <= k < |rest| && rest[k].pid == j
    {
      var k :| 0 <= k < |rs| && rs[k].pid == j;
      assert rest[k - 1].pid == j;
    }
  }

  lemma AnswerKeepsGrants(s: State, t: State, d: Client)
    requires GrantsOk(s) && NumbersOk(s) && InHand(s) && s.req.pid < |s.clients|
    requires t.granted == s.granted && t.requests == s.requests && t.clients == s.clients[s.req.pid := d]
    requires !Awaiting(d) && Asked(d) && d.seqLen == s.clients[s.req.pid].seqLen
    ensures GrantsOk(t)
  {
    hide Awaiting, Asked, Tiled, Total;
    assert s.granted[|s.granted| - 1].pid == s.req.pid;
  }

  lemma AnswerKeepsAnswers(s: State, t: State, d: Client)
    requires AnswersOk(s) && NumbersOk(s) && s.server == WriteReply && s.req.pid < |s.clients|
    requires t.granted == s.granted && t.clients == s.clients[s.req.pid := d]
    requires d.box == [s.seqNum] && d.got == []
    ensures AnswersOk(t)
  {
    assert s.granted[|s.granted| - 1].pid == s.req.pid;
    assert IsGranted(s.granted, s.req.pid, s.seqNum);
    hide IsGranted, Tiled, Total;
  }

  lemma AnswerKeepsRendezvous(s: State, t: State, d: Client)
    requires RendezvousOk(s) && s.server == WriteReply && t.server == CloseReply && t.req == s.req
    requires t.clients == s.clients[s.req.pid := d] && !Awaiting(d) && Asked(d)
    ensures RendezvousOk(t)
  {
    hide Awaiting, Asked;
  }

  lemma AnsweredOk(c: Client, n: nat)
    requires ClientOk(c) && Awaiting(c) && c.writer && c.reader
    ensures ClientOk(Answered(c, n)) && !Awaiting(Answered(c, n)) && Asked(c) && Asked(Answered(c, n))
    ensures Answered(c, n).box == [n] && Answered(c, n).got == []
  {
  }

  lemma WriteReplyKeepsSound(s: State)
    requires Sound(s) && s.server == WriteReply
    ensures ServerEnabled(s) && Sound(ServerApply(s))
  {
    assert Outstanding(s)[0] == s.req;
    OutstandingAsked(s, 0);
    var c := s.clients[s.req.pid];
    assert ClientOk(c) && (Awaiting(c) || c.killed) && c.writer && c.reader;
    if HoldsReadEnd(c) {
      AnswerKeepsSound(s);
    } else {
      DeafIsDead(c);
      DropKeepsSound(s, ServerApply(s));
    }
  }

  lemma DeafIsDead(c: Client)
    requires ClientOk(c) && c.reader && !HoldsReadEnd(c)
    ensures !Awaiting(c)
  {
  }

  lemma AnswerKeepsSound(s: State)
    requires Sound(s) && s.server == WriteReply && ServerEnabled(s) && HoldsReadEnd(s.clients[s.req.pid])
    ensures Sound(ServerApply(s))
  {
    var c := s.clients[s.req.pid];
    var d := Answered(c, s.seqNum);
    assert Outstanding(s)[0] == s.req;
    assert ClientOk(c) && Awaiting(c);
    AnsweredOk(c, s.seqNum);
    OpenSeesWriter(s);
    hide ClientOk, ClientsOk, ServerOk, GrantsOk, AnswersOk, RequestsOk, AwaitedOk, NumbersOk;
    var t := ServerApply(s);
    ServingKeepsControl(s, t, s.req.pid, d);
    assert Outstanding(t) == Outstanding(s)[1..];
    RemoveKeepsQueue(s.clients, Outstanding(s), d);
    AnswerKeepsGrants(s, t, d);
    AnswerKeepsAnswers(s, t, d);
    AnswerKeepsRendezvous(s, t, d);
    NumbersFrame(s, t);
    hide Awaiting, Asked, RendezvousOk;
  }

  lemma ClosedOk(c: Client)
    requires ClientOk(c)
    ensures ClientOk(Closed(c)) && Alike(c, Closed(c)) && Awaiting(Closed(c)) == Awaiting(c)
  {
  }

  lemma CloseKeepsSound(s: State)
    requires Sound(s) && ServerEnabled(s) && s.server == CloseReply
    ensures Sound(ServerApply(s))
  {
    var t := ServerApply(s);
    var c := s.clients[s.req.pid];
    assert ClientOk(c);
    ClosedOk(c);
    hide ClientOk, ClientsOk, ServerOk, QueueOk, GrantsOk, AnswersOk, NumbersOk, RendezvousOk, Alike, Awaiting;
    assert Outstanding(t) == Outstanding(s);
    OpenSeesWriter(s);
    ServingKeepsControl(s, t, s.req.pid, Closed(c));
    ReplaceAlike(s, t, s.req.pid, Closed(c));
    NumbersFrame(s, t);
    CloseKeepsRendezvous(s, t);
  }

  lemma CloseKeepsRendezvous(s: State, t: State)
    requires RendezvousOk(s) && s.server == CloseReply && t.server == Advance && t.req == s.req
    requires s.req.pid < |s.clients| && t.clients == s.clients[s.req.pid := Closed(s.clients[s.req.pid])]
    requires Awaiting(Closed(s.clients[s.req.pid])) == Awaiting(s.clients[s.req.pid])
    ensures RendezvousOk(t)
  {
    hide Awaiting;
  }

  lemma MoveKeepsSound(s: State)
    requires Sound(s) && ServerEnabled(s) && s.server in {OpenRead, OpenReadBlocked, OpenDummy, Advance}
    ensures Sound(ServerApply(s))
  {
    assert Outstanding(ServerApply(s)) == Outstanding(s);
  }

  lemma StepKeepsSound(s: State, t: State)
    requires Sound(s) && Next(s, t)
    ensures Sound(t)
  {
    hide Sound, ServerApply, ClientApply;
    var e :| Enabled(s, e) && t == Apply(s, e);
    match e
    case ClientStep(i) =>
      if s.clients[i].pc == WriteRequest {
        WriteRequestKeepsSound(s, i);
      } else {
        ClientKeepsSound(s, i);
      }
    case ServerStep => ServerKeepsSound(s);
  }

  lemma ServerKeepsSound(s: State)
    requires Sound(s) && ServerEnabled(s)
    ensures Sound(ServerApply(s))
  {
    hide Sound, ServerApply, ServerEnabled;
    match s.server
    case ReadRequest => TakeKeepsSound(s);
    case OpenReply => OpenReplyKeepsSound(s);
    case OpenReplyBlocked => RendezvousKeepsSound(s);
    case WriteReply => WriteReplyKeepsSound(s);
    case CloseReply => CloseKeepsSound(s);
    case _ => MoveKeepsSound(s);
  }

  // ---------------------------------------------------------------------------------------------
  // Deaths

  lemma KilledOk(c: Client)
    requires ClientOk(c)
    ensures ClientOk(Killed(c)) && !Awaiting(Killed(c)) && Asked(Killed(c))
  {
  }

  lemma KillKeepsSound(s: State, i: nat)
    requires Sound(s) && i < |s.clients|
    ensures Sound(s.(clients := s.clients[i := Killed(s.clients[i])]))
  {
    var t := s.(clients := s.clients[i := Killed(s.clients[i])]);
    assert ClientOk(s.clients[i]);
    KilledOk(s.clients[i]);
    hide ServerOk, ClientsOk, ClientOk, RequestsOk, AwaitedOk, RendezvousOk, NumbersOk, GrantsOk, AnswersOk;
    hide Awaiting, Asked;
    assert Outstanding(t) == Outstanding(s);
    KillKeepsControl(s, t, i);
    KillKeepsQueue(s.clients, Outstanding(s), i);
    NumbersFrame(s, t);
    KillKeepsRendezvous(s, t, i);
    KillKeepsGrants(s, t, i);
  }

  lemma KillKeepsControl(s: State, t: State, i: nat)
    requires ServerOk(s) && ClientsOk(s) && i < |s.clients| && ClientOk(Killed(s.clients[i]))
    requires t == s.(clients := s.clients[i := Killed(s.clients[i])])
    ensures ServerOk(t) && ClientsOk(t)
  {
    hide ClientOk;
  }

  lemma KillKeepsQueue(clients: seq<Client>, rs: seq<Request>, i: nat)
    requires RequestsOk(clients, rs) && AwaitedOk(clients, rs) && i < |clients| && !Awaiting(Killed(clients[i]))
    ensures
      var after := clients[i := Killed(clients[i])];
      RequestsOk(after, rs) && AwaitedOk(after, rs)
  {
    hide Awaiting;
  }

  lemma KillKeepsRendezvous(s: State, t: State, i: nat)
    requires RendezvousOk(s) && i < |s.clients| && !Awaiting(Killed(s.clients[i])) && Asked(Killed(s.clients[i]))
    requires t == s.(clients := s.clients[i := Killed(s.clients[i])])
    ensures RendezvousOk(t)
  {
    hide Awaiting, Asked;
  }

  lemma KillKeepsGrants(s: State, t: State, i: nat)
    requires GrantsOk(s) && AnswersOk(s) && i < |s.clients|
    requires !Awaiting(Killed(s.clients[i])) && Asked(Killed(s.clients[i]))
    requires t == s.(clients := s.clients[i := Killed(s.clients[i])])
    ensures GrantsOk(t) && AnswersOk(t)
  {
    hide Awaiting, Asked, IsGranted;
  }

  /** Every step of the service and every death keeps what deaths cannot spoil. */
  lemma FaultyKeepsSound(s: State, t: State)
    requires Sound(s) && Faulty(s, t)
    ensures Sound(t)
  {
    hide Sound, Next, Killed;
    if Next(s, t) {
      StepKeepsSound(s, t);
    } else {
      var i :| 0 <= i < |s.clients| && s.clients[i].pc != Gone
        && t == s.(clients := s.clients[i := Killed(s.clients[i])]);
      KillKeepsSound(s, i);
    }
  }

  // ---------------------------------------------------------------------------------------------
  // Without deaths

  /** One client has changed, and has moved on to the requests if it has asked. */
  lemma OneKeepsHealth(s: State, t: State, i: nat, d: Client)
    requires Healthy(s) && CountOk(s) && i < |s.clients| && t.clients == s.clients[i := d]
    requires t.failed == s.failed && d.killed == s.clients[i].killed
    requires NotAsked(d) + |t.requests| + |t.granted| == NotAsked(s.clients[i]) + |s.requests| + |s.granted|
    ensures Healthy(t) && CountOk(t)
  {
    SumUpdate(NotAsked, s.clients, i, d);
    hide Sum, NotAsked;
  }

  lemma ClientMoveHealth(c: Client)
    requires ClientOk(c) && c.pc != Gone
    ensures ClientMove(c).killed == c.killed
    ensures if c.pc == WriteRequest then !Asked(c) && Asked(ClientMove(c)) else Asked(ClientMove(c)) == Asked(c)
  {
  }

  lemma ClientKeepsHealth(s: State, i: nat)
    requires Inv(s) && ClientEnabled(s, i)
    ensures Healthy(ClientApply(s, i)) && CountOk(ClientApply(s, i))
  {
    var c := s.clients[i];
    assert ClientOk(c) && c.pc != Gone;
    ClientMoveHealth(c);
    hide Sound, ClientOk, ClientEnabled, ClientMove, Asked, Healthy, CountOk;
    OneKeepsHealth(s, ClientApply(s, i), i, ClientMove(c));
  }

  /** The client that is being served awaits its answer, in its FIFO. */
  lemma ServedAwaits(s: State)
    requires Inv(s) && Serving(s)
    ensures s.req.pid < |s.clients| && Awaiting(s.clients[s.req.pid]) && s.clients[s.req.pid].fifo
    ensures s.server == WriteReply ==> HoldsReadEnd(s.clients[s.req.pid])
  {
    hide GrantsOk, AnswersOk, NumbersOk, CountOk, AwaitedOk;
    assert Outstanding(s)[0] == s.req;
    assert ClientOk(s.clients[s.req.pid]);
  }

  lemma ServerKeepsHealth(s: State)
    requires Inv(s) && ServerEnabled(s)
    ensures Healthy(ServerApply(s)) && CountOk(ServerApply(s))
  {
    if Serving(s) {
      ServedAwaits(s);
    }
    var i := s.req.pid;
    hide Sound, WriteEndOpen, Healthy, CountOk;
    match s.server
    case OpenReply => OneKeepsHealth(s, ServerApply(s), i, Opened(s.clients[i]));
    case WriteReply => OneKeepsHealth(s, ServerApply(s), i, Answered(s.clients[i], s.seqNum));
    case CloseReply => OneKeepsHealth(s, ServerApply(s), i, Closed(s.clients[i]));
    case _ => SameClientsKeepHealth(s, ServerApply(s));
  }

  lemma SameClientsKeepHealth(s: State, t: State)
    requires Healthy(s) && CountOk(s) && t.clients == s.clients && t.failed == s.failed
    requires |t.requests| + |t.granted| == |s.requests| + |s.granted|
    ensures Healthy(t) && CountOk(t)
  {
    hide Sum;
  }

  lemma ClientKeepsInv(s: State, i: nat)
    requires Inv(s) && ClientEnabled(s, i)
    ensures Inv(ClientApply(s, i))
  {
    assert Enabled(s, ClientStep(i)) && Next(s, Apply(s, ClientStep(i)));
    StepKeepsSound(s, ClientApply(s, i));
    ClientKeepsHealth(s, i);
    hide Sound, Healthy, CountOk, ClientApply;
  }

  lemma ServerKeepsInv(s: State)
    requires Inv(s) && ServerEnabled(s)
    ensures Inv(ServerApply(s))
  {
    ServerKeepsSound(s);
    ServerKeepsHealth(s);
    hide Sound, Healthy, CountOk, ServerApply;
  }

  lemma StepKeepsInv(s: State, t: State)
    requires Inv(s) && Next(s, t)
    ensures Inv(t)
  {
    hide Inv, ServerApply, ClientApply, ServerEnabled, ClientEnabled;
    var e :| Enabled(s, e) && t == Apply(s, e);
    match e
    case ClientStep(i) => ClientKeepsInv(s, i);
    case ServerStep => ServerKeepsInv(s);
  }

  // ---------------------------------------------------------------------------------------------
  // Every run

  predicate SameClients(s: State, t: State) {
    |t.clients| == |s.clients| && forall i :: 0 <= i < |s.clients| ==> t.clients[i].seqLen == s.clients[i].seqLen
  }

  lemma StepKeepsClients(s: State, t: State)
    requires Next(s, t)
    ensures SameClients(s, t)
  {
    hide ServerApply, ClientApply;
    var e :| Enabled(s, e) && t == Apply(s, e);
    match e
    case ClientStep(i) => ClientKeepsClients(s, i);
    case ServerStep => ServerKeepsClients(s);
  }

  lemma ClientKeepsClients(s: State, i: nat)
    requires ClientEnabled(s, i)
    ensures SameClients(s, ClientApply(s, i))
  {
    assert ClientMove(s.clients[i]).seqLen == s.clients[i].seqLen;
    hide ClientMove;
  }

  lemma ServerKeepsClients(s: State)
    requires ServerEnabled(s)
    ensures SameClients(s, ServerApply(s))
  {
    hide WriteEndOpen;
    match s.server
    case OpenReply => hide Answered, Closed;
    case WriteReply => hide Opened, Closed;
    case CloseReply => hide Opened, Answered;
    case _ => assert ServerApply(s).clients == s.clients;
  }

  lemma RunKeepsInv(run: seq<State>)
    requires IsRun(Next, run) && Starting(run[0])
    ensures forall k :: 0 <= k < |run| ==> Inv(run[k]) && SameClients(run[0], run[k])
  {
    hide Inv, Next;
    var start := run[0];
    var inv := (s: State) => Inv(s) && SameClients(start, s);
    forall s, t | inv(s) && Next(s, t)
      ensures inv(t)
    {
      StepKeepsInv(s, t);
      StepKeepsClients(s, t);
    }
    StartInv(start);
    InvariantHolds(Next, inv, run);
    assert forall k :: 0 <= k < |run| ==> inv(run[k]);
  }

  /** Whatever becomes of clients and replies: from any state in which the books are right every run hands out ranges
      that tile the numbers from 0 to the total. */
  lemma RangesAlwaysTile(run: seq<State>)
    requires IsRun(Faulty, run) && NumbersOk(run[0])
    ensures forall k :: 0 <= k < |run| ==> Tiles(run[k].granted) && run[0].granted <= run[k].granted
  {
    hide Next;
    var start := run[0];
    var inv := (s: State) => NumbersOk(s) && start.granted <= s.granted;
    forall s, t | inv(s) && Faulty(s, t)
      ensures inv(t)
    {
      if Next(s, t) {
        StepKeepsNumbers(s, t);
      } else {
        NumbersFrame(s, t);
      }
    }
    InvariantHolds(Faulty, inv, run);
    forall k | 0 <= k < |run|
      ensures Tiles(run[k].granted) && run[0].granted <= run[k].granted
    {
      assert inv(run[k]);
      TiledMeansTiles(run[k].granted);
    }
  }

  lemma StepKeepsNumbers(s: State, t: State)
    requires NumbersOk(s) && Next(s, t)
    ensures NumbersOk(t) && s.granted <= t.granted
  {
    hide NumbersOk, ServerApply, ClientApply;
    var e :| Enabled(s, e) && t == Apply(s, e);
    match e
    case ClientStep(i) => ClientFrame(s, i);
    case ServerStep => ServerKeepsNumbers(s);
  }

  lemma ClientFrame(s: State, i: nat)
    requires NumbersOk(s) && ClientEnabled(s, i)
    ensures NumbersOk(ClientApply(s, i)) && ClientApply(s, i).granted == s.granted
  {
    hide NumbersOk, ClientMove;
    NumbersFrame(s, ClientApply(s, i));
  }

  lemma AdvanceKeepsNumbers(s: State)
    requires NumbersOk(s) && s.server == Advance
    ensures NumbersOk(ServerApply(s))
  {
    hide Tiled, Total;
  }

  lemma ServerKeepsNumbers(s: State)
    requires NumbersOk(s) && ServerEnabled(s)
    ensures NumbersOk(ServerApply(s)) && s.granted <= ServerApply(s).granted
  {
    hide NumbersOk, WriteEndOpen;
    var t := ServerApply(s);
    if s.server == Advance {
      AdvanceKeepsNumbers(s);
    } else if s.server == ReadRequest && s.requests != [] {
      TakeKeepsNumbers(s);
    } else {
      assert t.granted == s.granted && t.seqNum == s.seqNum && t.req == s.req && InHand(t) == InHand(s);
      NumbersFrame(s, t);
    }
  }

  /** A request on its way, or in the server's hands, has its reply FIFO ready. */
  predicate RepliesCanBeOpened(s: State) {
    forall k :: 0 <= k < |Outstanding(s)| ==>
      Outstanding(s)[k].pid < |s.clients| && s.clients[Outstanding(s)[k].pid].fifo
  }

  /** The server's request read has never met an end of file and no reply has failed. */
  predicate NothingLost(s: State) {
    s.eofs == 0 && s.failed == 0 && RepliesCanBeOpened(s)
  }

  /** Two clients that have their numbers have ranges without a number in common. */
  predicate AnswersDisjoint(s: State) {
    forall i, j :: 0 <= i < j < |s.clients| && s.clients[i].got != [] && s.clients[j].got != [] ==>
      || s.clients[i].got[0] + s.clients[i].seqLen <= s.clients[j].got[0]
      || s.clients[j].got[0] + s.clients[j].seqLen <= s.clients[i].got[0]
  }

  lemma InvMeansNothingLost(s: State)
    requires Inv(s)
    ensures NothingLost(s)
  {
    hide GrantsOk, AnswersOk, NumbersOk, RendezvousOk, CountOk;
    forall k | 0 <= k < |Outstanding(s)|
      ensures s.clients[Outstanding(s)[k].pid].fifo
    {
      assert Awaiting(s.clients[Outstanding(s)[k].pid]) && ClientOk(s.clients[Outstanding(s)[k].pid]);
    }
  }

  /** The server's own write end keeps its request read from meeting the end of the FIFO, and the client it is serving
      exists. */
  lemma InvMeansNoEof(s: State)
    requires Inv(s)
    ensures s.server == ReadRequest ==> s.dummy && (ServerEnabled(s) <==> s.requests != [])
    ensures s.server in {OpenReplyBlocked, WriteReply, CloseReply} ==> s.req.pid < |s.clients|
    ensures s.server == WriteReply ==> HoldsReadEnd(s.clients[s.req.pid])
  {
    if s.server == WriteReply {
      ServedAwaits(s);
    }
    hide QueueOk, GrantsOk, AnswersOk, NumbersOk, CountOk, ClientsOk;
  }

  /** Clients may die at any moment: the server's request read still never meets the end of its FIFO, two clients that
      have got their numbers have disjoint ranges, and the ranges of all processed requests tile. */
  lemma SurvivorsShareNoNumber(run: seq<State>)
    requires IsRun(Faulty, run) && Starting(run[0])
    ensures forall k :: 0 <= k < |run| ==>
      run[k].eofs == 0 && AnswersDisjoint(run[k]) && Tiles(run[k].granted)
  {
    FaultyRunIsSound(run);
    hide Faulty, Sound, Starting, AnswersDisjoint;
    forall k | 0 <= k < |run|
      ensures run[k].eofs == 0 && AnswersDisjoint(run[k]) && Tiles(run[k].granted)
    {
      SoundMeansDisjoint(run[k]);
    }
  }

  lemma FaultyRunIsSound(run: seq<State>)
    requires IsRun(Faulty, run) && Starting(run[0])
    ensures forall k :: 0 <= k < |run| ==> Sound(run[k])
  {
    StartInv(run[0]);
    hide Faulty, Sound, Starting;
    forall s, t | Sound(s) && Faulty(s, t)
      ensures Sound(t)
    {
      FaultyKeepsSound(s, t);
    }
    InvariantHolds(Faulty, Sound, run);
  }

  lemma InvIsSound(s: State)
    requires Inv(s)
    ensures Sound(s)
  {
  }

  lemma SoundMeansDisjoint(s: State)
    requires Sound(s)
    ensures s.eofs == 0 && AnswersDisjoint(s) && Tiles(s.granted)
  {
    TiledMeansTiles(s.granted);
    assert s.eofs == 0;
    hide Sound, Tiles;
    forall i, j | 0 <= i < j < |s.clients| && s.clients[i].got != [] && s.clients[j].got != []
      ensures s.clients[i].got[0] + s.clients[i].seqLen <= s.clients[j].got[0]
           || s.clients[j].got[0] + s.clients[j].seqLen <= s.clients[i].got[0]
    {
      var k := GrantOf(s, i);
      var l := GrantOf(s, j);
      InOrder(s.granted, k, l);
    }
  }

  lemma InOrder(gs: seq<Grant>, k: nat, l: nat)
    requires Tiled(gs) && k < |gs| && l < |gs| && k != l
    ensures gs[k].start + gs[k].len <= gs[l].start || gs[l].start + gs[l].len <= gs[k].start
  {
    if k < l {
      RangesDisjoint(gs, k, l);
    } else {
      RangesDisjoint(gs, l, k);
    }
  }

  lemma GrantOf(s: State, i: nat) returns (k: nat)
    requires Sound(s) && i < |s.clients| && s.clients[i].got != []
    ensures k < |s.granted| && s.granted[k] == Grant(i, s.clients[i].got[0], s.clients[i].seqLen)
    ensures Tiled(s.granted)
  {
    assert s.clients[i].got[0] in s.clients[i].box + s.clients[i].got;
    assert IsGranted(s.granted, i, s.clients[i].got[0]);
    k :| 0 <= k < |s.granted| && s.granted[k].pid == i && s.granted[k].start == s.clients[i].got[0];
  }

  /** Main theorem, for any number of clients and every interleaving. */
  lemma NumbersAreUnique(run: seq<State>)
    requires IsRun(Next, run) && Starting(run[0])
    ensures forall k :: 0 <= k < |run| ==>
      NothingLost(run[k]) && AnswersDisjoint(run[k]) && Tiles(run[k].granted) && SameClients(run[0], run[k])
  {
    hide Next;
    RunKeepsInv(run);
    forall k | 0 <= k < |run|
      ensures NothingLost(run[k]) && AnswersDisjoint(run[k]) && Tiles(run[k].granted)
    {
      InvMeansNothingLost(run[k]);
      SoundMeansDisjoint(run[k]);
    }
  }

  // ---------------------------------------------------------------------------------------------
  // No deadlock, termination, and the final state

  ghost predicate Stuck(s: State) {
    forall e :: !Enabled(s, e)
  }

  predicate AllGone(s: State) {
    forall i :: 0 <= i < |s.clients| ==> s.clients[i].pc == Gone
  }

  /** The server has entered the open of the FIFO of a client that died without ever opening it. */
  predicate WaitsForDead(s: State) {
    && s.server == OpenReplyBlocked && s.req.pid < |s.clients|
    && s.clients[s.req.pid].killed && s.clients[s.req.pid].pc == Gone && !s.clients[s.req.pid].reader
  }

  /** While the server waits for the other end of a reply FIFO, the client it is serving can move, or has died. */
  lemma ServedClientMoves(s: State)
    requires Sound(s) && Serving(s) && !ServerEnabled(s)
    ensures WaitsForDead(s) || ClientEnabled(s, s.req.pid)
  {
    hide GrantsOk, AnswersOk, NumbersOk, AwaitedOk;
    assert Outstanding(s)[0] == s.req;
    assert ClientOk(s.clients[s.req.pid]);
  }

  /** The server can move, or the client it is serving can, or that client is dead, or the server waits and no request
      is on its way. */
  lemma ServiceProgress(s: State)
    requires Sound(s)
    ensures
      || ServerEnabled(s)
      || WaitsForDead(s)
      || (Serving(s) && ClientEnabled(s, s.req.pid))
      || (Outstanding(s) == [] && s.server in {OpenReadBlocked, ReadRequest} && s.serverReads)
  {
    if Serving(s) && !ServerEnabled(s) {
      ServedClientMoves(s);
    }
    hide GrantsOk, AnswersOk, NumbersOk, ClientsOk, RequestsOk, AwaitedOk, ClientEnabled;
  }

  /** A stuck service has answered every client that has not died, unless it waits for a dead one. */
  lemma StuckMeansServed(s: State)
    requires Sound(s) && Stuck(s) && !WaitsForDead(s)
    ensures s.requests == [] && s.server in {OpenReadBlocked, ReadRequest}
    ensures forall i :: 0 <= i < |s.clients| ==> s.clients[i].killed || Satisfied(s.clients[i])
  {
    ServiceProgress(s);
    assert !Enabled(s, ServerStep) && !Enabled(s, ClientStep(s.req.pid));
    assert Outstanding(s) == [];
    hide GrantsOk, AnswersOk, NumbersOk, RendezvousOk, ServerEnabled;
    forall i | 0 <= i < |s.clients| && !s.clients[i].killed
      ensures Satisfied(s.clients[i])
    {
      assert !Enabled(s, ClientStep(i));
      assert ClientOk(s.clients[i]) && !Awaiting(s.clients[i]);
    }
  }

  /** The client has read its number and removed its FIFO. */
  predicate Satisfied(c: Client) {
    c.pc == Gone && |c.got| == 1 && !c.fifo
  }

  lemma StuckMeansAllGone(s: State)
    requires Inv(s) && Stuck(s)
    ensures AllGone(s) && s.requests == [] && s.server in {OpenReadBlocked, ReadRequest}
  {
    hide Sound, Stuck;
    StuckMeansServed(s);
  }

  /** Clients may die at any moment: when the service cannot go on, every survivor has been answered, unless the server
      waits for a client that died between its request and the open of its FIFO. */
  lemma SurvivorsAreAnswered(run: seq<State>)
    requires IsRun(Faulty, run) && Starting(run[0]) && Stuck(run[|run| - 1])
    ensures
      var last := run[|run| - 1];
      WaitsForDead(last) || forall i :: 0 <= i < |last.clients| ==> last.clients[i].killed || Satisfied(last.clients[i])
  {
    FaultyRunIsSound(run);
    hide Sound, Faulty, Starting, WaitsForDead, Stuck;
    if !WaitsForDead(run[|run| - 1]) {
      StuckMeansServed(run[|run| - 1]);
    }
  }

  /** And then it waits for ever: no request is taken any more, and nobody who has no answer gets one. */
  lemma WaitsForEver(run: seq<State>, k: nat)
    requires IsRun(Faulty, run) && WaitsForDead(run[0]) && k < |run|
    ensures StillWaits(run[0], run[k])
  {
    hide Faulty;
    var start := run[0];
    var inv := (s: State) => StillWaits(start, s);
    forall s, t | inv(s) && Faulty(s, t)
      ensures inv(t)
    {
      StepStillWaits(start, s, t);
    }
    InvariantHolds(Faulty, inv, run);
    assert inv(run[k]);
  }

  predicate StillWaits(start: State, s: State) {
    && WaitsForDead(s) && s.granted == start.granted && |s.clients| == |start.clients|
    && forall j :: 0 <= j < |start.clients| && start.clients[j].box + start.clients[j].got == [] ==>
         s.clients[j].box + s.clients[j].got == []
  }

  lemma StepStillWaits(start: State, s: State, t: State)
    requires StillWaits(start, s) && Faulty(s, t)
    ensures StillWaits(start, t)
  {
    hide ServerApply;
    if Next(s, t) {
      var e :| Enabled(s, e) && t == Apply(s, e);
      assert e != ServerStep && e.i != s.req.pid;
      NothingToRead(s.clients[e.i]);
      hide ClientMove, ClientEnabled, Next;
    } else {
      hide Next;
    }
  }

  lemma NothingToRead(c: Client)
    requires c.pc != Gone
    ensures c.box + c.got == [] ==> ClientMove(c).box + ClientMove(c).got == []
  {
    assert c.box + c.got == [] ==> c.box == [] && c.got == [];
  }

  lemma GoOn(run: seq<State>, e: Event) returns (longer: seq<State>)
    requires IsRun(Faulty, run) && Enabled(run[|run| - 1], e)
    ensures IsRun(Faulty, longer) && longer[0] == run[0] && longer[|longer| - 1] == Apply(run[|run| - 1], e)
  {
    var t := Apply(run[|run| - 1], e);
    assert Next(run[|run| - 1], t);
    ExtendRun(Faulty, run, t);
    longer := run + [t];
  }

  /** Client `i` writes its request and dies before it opens its FIFO: the server waits for it, and nobody else has been
      answered. */
  lemma DeadClientStopsService(start: State, i: nat) returns (run: seq<State>)
    requires Starting(start) && i < |start.clients|
    ensures IsRun(Faulty, run) && run[0] == start && WaitsForDead(run[|run| - 1])
    ensures
      var last := run[|run| - 1];
      |last.clients| == |start.clients| && forall j :: 0 <= j < |start.clients| && j != i ==>
        last.clients[j] == start.clients[j]
  {
    run := AskAndDie(start, i);
    run := GoOn(run, ServerStep);
    run := GoOn(run, ServerStep);
    run := GoOn(run, ServerStep);
    run := GoOn(run, ServerStep);
  }

  lemma AskAndDie(start: State, i: nat) returns (run: seq<State>)
    requires Starting(start) && i < |start.clients|
    ensures IsRun(Faulty, run) && run[0] == start
    ensures
      var t := run[|run| - 1];
      && |t.clients| == |start.clients| && t.clients == start.clients[i := t.clients[i]]
      && t.clients[i].killed && t.clients[i].pc == Gone && t.clients[i].fifo && !t.clients[i].reader
      && t.server == OpenReadBlocked && t.writerSeen && t.requests == [Request(i, start.clients[i].seqLen)]
  {
    run := GoOn([start], ServerStep);
    run := GoOn(run, ClientStep(i));
    run := GoOn(run, ClientStep(i));
    run := GoOn(run, ClientStep(i));
    run := GoOn(run, ClientStep(i));
    var s := run[|run| - 1];
    var t := s.(clients := s.clients[i := Killed(s.clients[i])]);
    assert Faulty(s, t);
    ExtendRun(Faulty, run, t);
    run := run + [t];
  }

  /** Each client has read one number, there is one grant for each, and its FIFO is gone. Clients that ask for one
      number each have got the numbers below their count, no two the same. */
  predicate AllAnswered(start: State, last: State) {
    && AllGone(last) && last.requests == [] && |last.granted| == |start.clients| == |last.clients|
    && AnswersDisjoint(last)
    && (forall i :: 0 <= i < |last.clients| ==>
          && |last.clients[i].got| == 1 && last.clients[i].seqLen == start.clients[i].seqLen
          && !last.clients[i].fifo && !last.clients[i].writeEnd)
    && ((forall i :: 0 <= i < |start.clients| ==> start.clients[i].seqLen == 1) ==>
          forall i :: 0 <= i < |last.clients| ==> last.clients[i].got[0] < |last.clients|)
  }

  /** A run that cannot go on has answered every client. */
  lemma CompleteRunAnswersAll(run: seq<State>)
    requires IsRun(Next, run) && Starting(run[0]) && Stuck(run[|run| - 1])
    ensures AllAnswered(run[0], run[|run| - 1])
  {
    hide Next, Inv, Stuck, Starting;
    RunKeepsInv(run);
    var last := run[|run| - 1];
    StuckMeansAllGone(last);
    GoneHaveNumbers(last);
    InvIsSound(last);
    SoundMeansDisjoint(last);
    hide AnswersDisjoint;
    if forall i :: 0 <= i < |run[0].clients| ==> run[0].clients[i].seqLen == 1 {
      forall i | 0 <= i < |last.clients|
        ensures last.clients[i].got[0] < |last.clients|
      {
        UnitNumber(last, i);
      }
    }
  }

  lemma GoneHaveNumbers(s: State)
    requires Inv(s) && AllGone(s) && s.requests == [] && s.server in {OpenReadBlocked, ReadRequest}
    ensures |s.granted| == |s.clients|
    ensures forall i :: 0 <= i < |s.clients| ==>
      |s.clients[i].got| == 1 && !s.clients[i].fifo && !s.clients[i].writeEnd
  {
    SumZero(NotAsked, s.clients);
    forall i | 0 <= i < |s.clients|
      ensures |s.clients[i].got| == 1 && !s.clients[i].fifo && !s.clients[i].writeEnd
    {
      assert ClientOk(s.clients[i]);
    }
  }

  lemma UnitNumber(s: State, i: nat)
    requires Inv(s) && i < |s.clients| && s.clients[i].got != []
    requires forall j :: 0 <= j < |s.clients| ==> s.clients[j].seqLen == 1
    ensures s.clients[i].got[0] < |s.granted|
  {
    var k := GrantOf(s, i);
    assert forall l :: 0 <= l < |s.granted| ==> s.granted[l].len == 1;
    UnitStart(s.granted, k);
  }

  /** Steps left to a client, at most; writing the request counts for the server's six steps too. */
  function ClientRank(c: Client): nat {
    match c.pc
    case MakeFifo => 14
    case OpenServer => 13
    case OpenServerBlocked => 12
    case WriteRequest => 11
    case OpenOwn => 4
    case OpenOwnBlocked => 3
    case ReadReply => 2
    case RemoveFifo => 1
    case Gone => 0
  }

  function ServerRank(pc: ServerPc): nat {
    match pc
    case OpenRead => 3
    case OpenReadBlocked => 2
    case OpenDummy => 1
    case ReadRequest => 0
    case OpenReply => 5
    case OpenReplyBlocked => 4
    case WriteReply => 3
    case CloseReply => 2
    case Advance => 1
  }

  function Measure(s: State): nat {
    Sum(ClientRank, s.clients) + 6 * |s.requests| + ServerRank(s.server)
  }

  lemma StepLowersMeasure(s: State, t: State)
    requires Inv(s) && Next(s, t)
    ensures Measure(t) < Measure(s)
  {
    hide Sound, Measure, Next;
    NextLowersMeasure(s, t);
  }

  lemma NextLowersMeasure(s: State, t: State)
    requires Sound(s) && Next(s, t)
    ensures Measure(t) < Measure(s)
  {
    hide Measure, ServerApply, ClientApply;
    var e :| Enabled(s, e) && t == Apply(s, e);
    assert s.server == ReadRequest ==> s.dummy;
    hide Sound;
    match e
    case ClientStep(i) => ClientLowersMeasure(s, i);
    case ServerStep => ServerLowersMeasure(s);
  }

  lemma ClientMoveLowers(c: Client)
    requires c.pc != Gone
    ensures ClientRank(ClientMove(c)) + (if c.pc == WriteRequest then 6 else 0) < ClientRank(c)
  {
  }

  lemma ClientLowersMeasure(s: State, i: nat)
    requires ClientEnabled(s, i)
    ensures Measure(ClientApply(s, i)) < Measure(s)
  {
    var d := ClientMove(s.clients[i]);
    SumUpdate(ClientRank, s.clients, i, d);
    ClientMoveLowers(s.clients[i]);
    hide Sum, ClientMove, ClientRank, ClientEnabled;
  }

  /** What the server does to a client leaves that client's program where it is. */
  lemma ServerKeepsClientRanks(s: State)
    requires ServerEnabled(s)
    ensures Sum(ClientRank, ServerApply(s).clients) == Sum(ClientRank, s.clients)
  {
    hide WriteEndOpen, Sum;
    var id := s.req.pid;
    match s.server
    case OpenReply =>
      if id < |s.clients| {
        SumSame(ClientRank, s.clients, id, Opened(s.clients[id]));
      }
    case WriteReply =>
      if HoldsReadEnd(s.clients[id]) {
        SumSame(ClientRank, s.clients, id, Answered(s.clients[id], s.seqNum));
      }
    case CloseReply => SumSame(ClientRank, s.clients, id, Closed(s.clients[id]));
    case _ =>
  }

  lemma ServerLowersMeasure(s: State)
    requires ServerEnabled(s) && (s.server == ReadRequest ==> s.dummy)
    ensures Measure(ServerApply(s)) < Measure(s)
  {
    ServerKeepsClientRanks(s);
    ServerMoveLowers(s);
    hide Sum, ServerApply, ServerEnabled;
  }

  lemma ServerMoveLowers(s: State)
    requires ServerEnabled(s) && (s.server == ReadRequest ==> s.dummy)
    ensures
      var t := ServerApply(s);
      6 * |t.requests| + ServerRank(t.server) < 6 * |s.requests| + ServerRank(s.server)
  {
    assert s.server == ReadRequest ==> WriteEndOpen(s) && s.requests != [];
    hide WriteEndOpen, Opened, Answered, Closed;
  }

  /** Every run ends, after at most fourteen steps for each client and three for start-up. */
  lemma RunTerminates(run: seq<State>)
    requires IsRun(Next, run) && Starting(run[0])
    ensures |run| - 1 <= 14 * |run[0].clients| + 3
  {
    hide Inv, Next, Measure;
    forall s, t | Inv(s) && Next(s, t)
      ensures Inv(t) && Measure(t) < Measure(s)
    {
      StepKeepsInv(s, t);
      StepLowersMeasure(s, t);
    }
    StartInv(run[0]);
    assert Inductive(Next, Inv) && Lowers(Next, Inv, Measure);
    RunIsBounded(Next, Inv, Measure, run);
    StartMeasure(run[0]);
  }

  /** A dead client takes no more steps. */
  lemma KillLowersMeasure(s: State, i: nat)
    requires i < |s.clients| && s.clients[i].pc != Gone
    ensures Measure(s.(clients := s.clients[i := Killed(s.clients[i])])) < Measure(s)
  {
    SumUpdate(ClientRank, s.clients, i, Killed(s.clients[i]));
    hide Sum;
  }

  lemma FaultyLowersMeasure(s: State, t: State)
    requires Sound(s) && Faulty(s, t)
    ensures Measure(t) < Measure(s)
  {
    hide Measure, Killed;
    if Next(s, t) {
      NextLowersMeasure(s, t);
    } else {
      hide Sound, Next;
      var i :| 0 <= i < |s.clients| && s.clients[i].pc != Gone
        && t == s.(clients := s.clients[i := Killed(s.clients[i])]);
      KillLowersMeasure(s, i);
    }
  }

  /** Deaths included, every run ends within the same bound: a reply that fails does not hold up the server. */
  lemma FaultyRunTerminates(run: seq<State>)
    requires IsRun(Faulty, run) && Starting(run[0])
    ensures |run| - 1 <= 14 * |run[0].clients| + 3
  {
    hide Sound, Faulty, Measure;
    forall s, t | Sound(s) && Faulty(s, t)
      ensures Sound(t) && Measure(t) < Measure(s)
    {
      FaultyKeepsSound(s, t);
      FaultyLowersMeasure(s, t);
    }
    FaultyRunIsSound([run[0]]);
    assert Inductive(Faulty, Sound) && Lowers(Faulty, Sound, Measure);
    RunIsBounded(Faulty, Sound, Measure, run);
    StartMeasure(run[0]);
  }

  lemma StartMeasure(s: State)
    requires Starting(s)
    ensures Measure(s) == 14 * |s.clients| + 3
  {
    RankAtStart(s.clients);
  }

  lemma {:induction false} RankAtStart(clients: seq<Client>)
    requires forall i :: 0 <= i < |clients| ==> clients[i].pc == MakeFifo
    ensures Sum(ClientRank, clients) == 14 * |clients|
  {
    if clients == [] {
    } else {
      assert forall i :: 0 <= i < |clients| - 1 ==> clients[1..][i] == clients[i + 1];
      RankAtStart(clients[1..]);
    }
  }
}
