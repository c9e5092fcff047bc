/** One session of the System V message-queue file server: a client, the child that the server forks for its
    request, and the client's private queue between them. The child sends DATA* END, or FAILURE alone. */
module FileSession {
  import opened Streams

  const PATH_MAX: nat := 300
  const RESP_MSG_SIZE: nat := 8192

  type Path = seq<byte>

  /** What a path that can be opened leads to: a file that nobody changes while it is sent, or the one output file that
      every client opens, truncates and writes. */
  datatype Node = Fixed(bytes: seq<byte>) | OutputFile

  type Disk = map<Path, Node>

  predicate IsFixed(disk: Disk, path: Path) {
    path in disk && disk[path].Fixed?
  }

  predicate IsOutput(disk: Disk, path: Path) {
    path in disk && disk[path].OutputFile?
  }

  datatype Kind = FailureMsg | DataMsg | EndMsg
  datatype Message = Message(kind: Kind, data: seq<byte>)

  datatype ClientPc =
    | CheckPath | SendRequest | ReceiveFirst | HandleFirst | WriteFirst
    | TestMore | ReceiveNext | HandleNext | Report | RemoveQueue | Gone

  datatype ChildPc =
    | NotForked | OpenFile | SendFailure | ReadFile | SendData | SendEnd | Finished

  /** A client; `got` records every message it has taken from its queue, `written` the bytes it passed to write. */
  datatype Client = Client(
    pc: ClientPc, queueExists: bool, resp: Message, totBytes: nat, numMsgs: nat, reported: bool,
    got: seq<Message>, written: seq<byte>)

  /** A child; `path` is the requested path, `held` the chunk in its buffer, `rest` what it neither sent nor holds of
      a file that nobody changes, `taken` what its reads of the output file have returned, and `sent` every message it
      has sent. Bytes that could not be sent go back to `rest`. `cut` says that a call failed at the cost of bytes: a
      read of a fixed file before its end, or the send of a chunk. */
  datatype Child = Child(
    pc: ChildPc, path: Path, held: seq<byte>, rest: seq<byte>, taken: seq<byte>, cut: bool, sent: seq<Message>)

  /** `path` is the client's argument. */
  datatype Session = Session(path: Path, client: Client, child: Child, queue: seq<Message>)

  /** A step of this session's client or child. `n` is what the child's read of a fixed file returns. `found` says
      whether the output file exists when the child opens it, and `chunk` is what the child then reads of it: these
      come from outside the session. */
  datatype Action =
    | ClientAct | ChildAct(n: nat) | OpensOutput(found: bool) | ReadsOutput(chunk: seq<byte>) | ReadFails | SendFails

  /** "Couldn't open ", the path, a full stop, a line feed and the terminating zero. */
  function FailureText(path: Path): seq<byte> {
    [67, 111, 117, 108, 100, 110, 39, 116, 32, 111, 112, 101, 110, 32] + path + [46, 10, 0]
  }

  predicate OneByteChars(text: string) {
    forall k :: 0 <= k < |text| ==> text[k] < 256 as char
  }

  function Bytes(text: string): seq<byte>
    requires OneByteChars(text)
  {
    seq(|text|, k requires 0 <= k < |text| => text[k] as int as byte)
  }

  lemma FailureTextReads(name: string)
    requires OneByteChars(name)
    ensures OneByteChars("Couldn't open " + name + ".\n\0")
    ensures FailureText(Bytes(name)) == Bytes("Couldn't open " + name + ".\n\0")
  {
    var head, tail := "Couldn't open ", ".\n\0";
    assert Bytes(head) == [67, 111, 117, 108, 100, 110, 39, 116, 32, 111, 112, 101, 110, 32];
    assert Bytes(tail) == [46, 10, 0];
    assert Bytes(head + name + tail) == Bytes(head) + Bytes(name) + Bytes(tail);
  }

  function Datas(msgs: seq<Message>): seq<seq<byte>> {
    seq(|msgs|, i requires 0 <= i < |msgs| => msgs[i].data)
  }

  function Payload(msgs: seq<Message>): seq<byte> {
    Flatten(Datas(msgs))
  }

  lemma PayloadAppend(msgs: seq<Message>, m: Message)
    ensures Payload(msgs + [m]) == Payload(msgs) + m.data
  {
    assert Datas(msgs + [m]) == Datas(msgs) + [m.data];
    FlattenAppend(Datas(msgs), [m.data]);
    FlattenOne(m.data);
  }

  lemma PayloadLast(msgs: seq<Message>)
    requires msgs != []
    ensures Payload(msgs) == Payload(msgs[..|msgs| - 1]) + msgs[|msgs| - 1].data
    ensures |msgs| == 1 ==> Payload(msgs) == msgs[0].data
  {
    var before := msgs[..|msgs| - 1];
    assert msgs == before + [msgs[|msgs| - 1]];
    PayloadAppend(before, msgs[|msgs| - 1]);
    assert before == [] ==> Payload(before) == [];
  }

  lemma PayloadConcat(a: seq<Message>, b: seq<Message>)
    ensures Payload(a + b) == Payload(a) + Payload(b)
  {
    assert Datas(a + b) == Datas(a) + Datas(b);
    FlattenAppend(Datas(a), Datas(b));
  }

  /** The private queue takes a message while its bytes stay within the limit; otherwise the sender blocks. */
  predicate Room(qbytes: nat, queue: seq<Message>, m: Message) {
    |Payload(queue)| + |m.data| <= qbytes
  }

  /** The message the child is about to send. */
  function Outgoing(c: Child): Message {
    if c.pc == SendFailure then Message(FailureMsg, FailureText(c.path))
    else if c.pc == SendData then Message(DataMsg, c.held)
    else Message(EndMsg, [])
  }

  predicate Sends(pc: ChildPc) {
    pc in {SendFailure, SendData, SendEnd}
  }

  predicate Receives(pc: ClientPc) {
    pc in {ReceiveFirst, ReceiveNext}
  }

  predicate CanAct(disk: Disk, qbytes: nat, s: Session, a: Action) {
    match a
    case ClientAct =>
      if Receives(s.client.pc) then s.client.queueExists && s.queue != []
      else s.client.pc != SendRequest && s.client.pc != Gone
    case ChildAct(n) =>
      if Sends(s.child.pc) then s.client.queueExists && Room(qbytes, s.queue, Outgoing(s.child))
      else
        && !IsOutput(disk, s.child.path)
        && (if s.child.pc == ReadFile then MayRead(s.child.rest, RESP_MSG_SIZE, n) else s.child.pc == OpenFile)
    case OpensOutput(_) => s.child.pc == OpenFile && IsOutput(disk, s.child.path)
    case ReadsOutput(chunk) => s.child.pc == ReadFile && IsOutput(disk, s.child.path) && |chunk| <= RESP_MSG_SIZE
    case ReadFails => s.child.pc == ReadFile
    case SendFails => s.child.pc == SendData
  }

  /** A message taken from the queue. */
  function Receive(c: Client, m: Message): Client
    requires Receives(c.pc)
  {
    c.(resp := m, got := c.got + [m], pc := if c.pc == ReceiveFirst then HandleFirst else HandleNext)
  }

  /** A statement of the client that involves neither the queues nor the server. */
  function ClientLocal(path: Path, c: Client): Client
    requires !Receives(c.pc) && c.pc != SendRequest && c.pc != Gone
  {
    match c.pc
    case CheckPath =>
      if |path| > PATH_MAX - 1 then c.(pc := Gone) else c.(queueExists := true, pc := SendRequest)
    case HandleFirst =>
      if c.resp.kind == FailureMsg then c.(pc := RemoveQueue)
      else c.(totBytes := |c.resp.data|, pc := WriteFirst)
    case WriteFirst => c.(written := c.resp.data, numMsgs := 1, pc := TestMore)
    case TestMore => c.(pc := if c.resp.kind == DataMsg then ReceiveNext else Report)
    case HandleNext =>
      c.(totBytes := c.totBytes + |c.resp.data|, written := c.written + c.resp.data, numMsgs := c.numMsgs + 1,
         pc := TestMore)
    case Report => c.(reported := true, pc := RemoveQueue)
    case RemoveQueue => c.(queueExists := false, pc := Gone)
  }

  /** A message of the child has been accepted by the queue. */
  function Sent(c: Child): Child
    requires Sends(c.pc)
  {
    c.(sent := c.sent + [Outgoing(c)], held := [], pc := if c.pc == SendData then ReadFile else Finished)
  }

  /** Opening and reading a file that nobody changes. */
  function ChildLocal(disk: Disk, c: Child, n: nat): Child
    requires c.pc == OpenFile || (c.pc == ReadFile && n <= |c.rest|)
  {
    if c.pc == OpenFile then
      if IsFixed(disk, c.path) then c.(rest := disk[c.path].bytes, pc := ReadFile) else c.(pc := SendFailure)
    else if n == 0 then c.(pc := SendEnd)
    else c.(held := c.rest[..n], rest := c.rest[n..], pc := SendData)
  }

  /** A read of the output file returns `chunk`. */
  function TakeChunk(c: Child, chunk: seq<byte>): Child {
    if chunk == [] then c.(pc := SendEnd) else c.(held := chunk, taken := c.taken + chunk, pc := SendData)
  }

  function Do(disk: Disk, qbytes: nat, s: Session, a: Action): Session
    requires CanAct(disk, qbytes, s, a)
  {
    match a
    case ClientAct =>
      if Receives(s.client.pc) then s.(client := Receive(s.client, s.queue[0]), queue := s.queue[1..])
      else if s.client.pc == RemoveQueue then s.(client := ClientLocal(s.path, s.client), queue := [])
      else s.(client := ClientLocal(s.path, s.client))
    case ChildAct(n) =>
      if Sends(s.child.pc) then s.(child := Sent(s.child), queue := s.queue + [Outgoing(s.child)])
      else s.(child := ChildLocal(disk, s.child, n))
    case OpensOutput(found) => s.(child := s.child.(pc := if found then ReadFile else SendFailure))
    case ReadsOutput(chunk) => s.(child := TakeChunk(s.child, chunk))
    case ReadFails => s.(child := s.child.(cut := s.child.rest != [], pc := SendEnd))
    case SendFails =>
      s.(child := s.child.(cut := true, rest := s.child.held + s.child.rest, held := [], pc := SendEnd))
  }

  // ---------------------------------------------------------------------------------------------
  // The output file, which all clients share

  /** The client has the output file open: it has truncated it and not closed it yet. */
  predicate FileOpen(c: Client) {
    c.pc in {WriteFirst, TestMore, ReceiveNext, HandleNext, Report}
  }

  /** write() at an offset: overwrites, extends, and fills a gap before the offset with zeros. */
  function WriteAt(file: seq<byte>, offset: nat, data: seq<byte>): seq<byte> {
    if data == [] then file
    else
      var before := if offset <= |file| then file[..offset] else file + seq(offset - |file|, _ => 0);
      before + data + if offset + |data| < |file| then file[offset + |data|..] else []
  }

  /** What a statement of client `c` does to the output file: opening truncates it, every write goes to the client's own
      offset. */
  function OutputAfter(file: seq<byte>, c: Client, a: Action): seq<byte> {
    if a != ClientAct then file
    else if c.pc == HandleFirst && c.resp.kind != FailureMsg then []
    else if c.pc in {WriteFirst, HandleNext} then WriteAt(file, |c.written|, c.resp.data)
    else file
  }

  /** The client's open makes sure that the output file exists. */
  predicate Creates(c: Client, a: Action) {
    a == ClientAct && c.pc == HandleFirst && c.resp.kind != FailureMsg
  }

  // ---------------------------------------------------------------------------------------------
  // The invariant of a session

  predicate IsChunk(m: Message) {
    m.kind == DataMsg && 1 <= |m.data| <= RESP_MSG_SIZE
  }

  predicate ChunksBefore(msgs: seq<Message>, n: int) {
    forall i :: 0 <= i < n && i < |msgs| ==> IsChunk(msgs[i])
  }

  /** The grammar of a whole transfer: FAILURE alone, or chunks and one empty END. */
  predicate WholeTransfer(path: Path, msgs: seq<Message>) {
    || msgs == [Message(FailureMsg, FailureText(path))]
    || (msgs != [] && ChunksBefore(msgs, |msgs| - 1) && msgs[|msgs| - 1] == Message(EndMsg, []))
  }

  /** What the child is to send: the file, or what its reads of the output file have returned. */
  function Source(disk: Disk, path: Path, c: Child): seq<byte> {
    if IsFixed(disk, path) then disk[path].bytes else c.taken
  }

  /** The file could not be opened, and the client is told so. */
  predicate Refused(c: Child) {
    c.sent != [] && c.sent[0].kind == FailureMsg
  }

  predicate ChildOk(disk: Disk, path: Path, c: Child) {
    && (c.pc != NotForked ==> c.path == path)
    && (if c.pc == SendData then 1 <= |c.held| <= RESP_MSG_SIZE else c.held == [])
    && match c.pc
       case NotForked => c.sent == [] && c.rest == [] && c.taken == [] && !c.cut
       case OpenFile => c.sent == [] && c.rest == [] && c.taken == [] && !c.cut
       case SendFailure => c.sent == [] && c.rest == [] && c.taken == [] && !IsFixed(disk, path)
       case Finished =>
         && WholeTransfer(path, c.sent)
         && (if Refused(c) then c.taken == [] && !IsFixed(disk, path)
             else
               && path in disk && Payload(c.sent) + c.rest == Source(disk, path, c)
               && (c.cut <==> c.rest != []))
       case _ =>
         && path in disk && ChunksBefore(c.sent, |c.sent|)
         && Payload(c.sent) + c.held + c.rest == Source(disk, path, c)
         && (if c.pc == SendEnd then c.cut <==> c.rest != [] else !c.cut)
         && (c.pc != SendEnd && IsOutput(disk, path) ==> c.rest == [])
  }

  /** Every message taken has been written out and counted. */
  predicate Recorded(c: Client) {
    && c.got != [] && c.resp == c.got[|c.got| - 1] && c.got[0].kind != FailureMsg
    && c.written == Payload(c.got) && c.totBytes == |c.written| && c.numMsgs == |c.got|
  }

  /** The client is done: it reported a whole transfer, or was told of a failure. */
  predicate Ended(c: Client) {
    if c.reported then Recorded(c) && c.resp.kind != DataMsg
    else |c.got| == 1 && c.got[0].kind == FailureMsg && c.written == []
  }

  /** What the client has taken and written out, by its program counter. */
  predicate ClientOk(path: Path, c: Client) {
    && (c.queueExists <==> c.pc != CheckPath && c.pc != Gone)
    && (c.queueExists ==> |path| <= PATH_MAX - 1)
    && (c.reported ==> c.pc == RemoveQueue || c.pc == Gone)
    && match c.pc
       case HandleFirst => |c.got| == 1 && c.resp == c.got[0] && c.written == []
       case WriteFirst =>
         && |c.got| == 1 && c.resp == c.got[0] && c.resp.kind != FailureMsg && c.written == []
         && c.totBytes == |c.resp.data|
       case TestMore => Recorded(c)
       case ReceiveNext => Recorded(c) && c.resp.kind == DataMsg
       case HandleNext =>
         && |c.got| >= 2 && c.resp == c.got[|c.got| - 1] && c.got[0].kind != FailureMsg
         && c.written == Payload(c.got[..|c.got| - 1])
         && c.totBytes == |c.written| && c.numMsgs == |c.got| - 1
       case Report => Recorded(c) && c.resp.kind != DataMsg
       case RemoveQueue => Ended(c)
       case Gone => if |path| > PATH_MAX - 1 then c.got == [] && c.written == [] && !c.reported else Ended(c)
       case _ => c.got == [] && c.written == []
  }

  /** The client has not sent its request, and never will if it is gone. */
  predicate Unasked(path: Path, c: Client) {
    c.pc in {CheckPath, SendRequest} || (c.pc == Gone && |path| > PATH_MAX - 1)
  }

  predicate SessionOk(disk: Disk, s: Session) {
    && ChildOk(disk, s.path, s.child) && ClientOk(s.path, s.client)
    && s.child.sent == s.client.got + s.queue
    && (Unasked(s.path, s.client) ==> s.child.pc == NotForked)
  }

  predicate AtStart(s: Session) {
    && s.client.pc == CheckPath && !s.client.queueExists && !s.client.reported
    && s.client.got == [] && s.client.written == []
    && s.child.pc == NotForked && !s.child.cut && s.child.sent == []
    && s.child.held == [] && s.child.rest == [] && s.child.taken == []
    && s.queue == []
  }

  lemma StartOk(disk: Disk, s: Session)
    requires AtStart(s)
    ensures SessionOk(disk, s)
  {
  }

  /** In a sent sequence only the very last message of a finished child is not a chunk. */
  lemma NotChunkIsLast(disk: Disk, path: Path, c: Child, i: nat)
    requires ChildOk(disk, path, c) && i < |c.sent| && c.sent[i].kind != DataMsg
    ensures c.pc == Finished && i == |c.sent| - 1
  {
    assert !IsChunk(c.sent[i]);
  }

  /** A client that has taken a final message has emptied its queue, and its child has made its last send. */
  lemma FinalMessageEmptiesQueue(disk: Disk, s: Session)
    requires SessionOk(disk, s) && s.client.got != [] && s.client.got[|s.client.got| - 1].kind != DataMsg
    ensures s.queue == [] && s.child.pc == Finished
  {
    var last := |s.client.got| - 1;
    assert s.child.sent[last] == s.client.got[last];
    NotChunkIsLast(disk, s.path, s.child, last);
  }

  lemma ReceiveKeepsOk(path: Path, c: Client, m: Message)
    requires ClientOk(path, c) && Receives(c.pc)
    ensures ClientOk(path, Receive(c, m))
  {
    assert Receive(c, m).got[..|c.got|] == c.got;
  }

  lemma ClientLocalKeepsOk(path: Path, c: Client)
    requires ClientOk(path, c) && !Receives(c.pc) && c.pc != SendRequest && c.pc != Gone
    ensures ClientOk(path, ClientLocal(path, c))
  {
    hide Payload;
    if c.pc in {HandleFirst, WriteFirst, HandleNext} {
      PayloadLast(c.got);
    }
  }

  lemma ClientLocalFrame(path: Path, c: Client)
    requires ClientOk(path, c) && !Receives(c.pc) && c.pc != SendRequest && c.pc != Gone
    ensures ClientLocal(path, c).got == c.got
    ensures Unasked(path, ClientLocal(path, c)) ==> Unasked(path, c)
  {
    hide Recorded, Ended;
  }

  lemma ClientKeepsOk(disk: Disk, qbytes: nat, s: Session)
    requires SessionOk(disk, s) && CanAct(disk, qbytes, s, ClientAct)
    ensures SessionOk(disk, Do(disk, qbytes, s, ClientAct))
  {
    hide ClientOk, ChildOk, Payload, ClientLocal, SessionOk;
    if Receives(s.client.pc) {
      ReceiveKeepsSession(disk, qbytes, s);
    } else {
      LocalKeepsSession(disk, qbytes, s);
    }
  }

  lemma ReceiveKeepsSession(disk: Disk, qbytes: nat, s: Session)
    requires SessionOk(disk, s) && Receives(s.client.pc) && CanAct(disk, qbytes, s, ClientAct)
    ensures SessionOk(disk, Do(disk, qbytes, s, ClientAct))
  {
    hide ClientOk, ChildOk;
    ReceiveKeepsOk(s.path, s.client, s.queue[0]);
  }

  lemma LocalKeepsSession(disk: Disk, qbytes: nat, s: Session)
    requires SessionOk(disk, s) && !Receives(s.client.pc) && CanAct(disk, qbytes, s, ClientAct)
    ensures SessionOk(disk, Do(disk, qbytes, s, ClientAct))
  {
    hide ChildOk, Payload, ClientLocal;
    ClientLocalKeepsOk(s.path, s.client);
    ClientLocalFrame(s.path, s.client);
    if s.client.pc == RemoveQueue {
      FinalMessageEmptiesQueue(disk, s);
    }
  }

  lemma SentKeepsOk(disk: Disk, path: Path, c: Child)
    requires ChildOk(disk, path, c) && Sends(c.pc)
    ensures ChildOk(disk, path, Sent(c))
  {
    PayloadAppend(c.sent, Outgoing(c));
    hide Payload;
    assert ChunksBefore(c.sent, |c.sent|) ==> ChunksBefore(Sent(c).sent, |c.sent|);
  }

  lemma ChildLocalKeepsOk(disk: Disk, path: Path, c: Child, n: nat)
    requires ChildOk(disk, path, c)
    requires c.pc == OpenFile || (c.pc == ReadFile && MayRead(c.rest, RESP_MSG_SIZE, n))
    ensures ChildOk(disk, path, ChildLocal(disk, c, n))
  {
    if c.pc == ReadFile {
      assert c.rest == c.rest[..n] + c.rest[n..];
    } else {
      assert Payload([]) == [];
    }
  }

  lemma ChildKeepsOk(disk: Disk, qbytes: nat, s: Session, n: nat)
    requires SessionOk(disk, s) && CanAct(disk, qbytes, s, ChildAct(n))
    ensures SessionOk(disk, Do(disk, qbytes, s, ChildAct(n)))
  {
    if Sends(s.child.pc) {
      SentKeepsOk(disk, s.path, s.child);
    } else {
      ChildLocalKeepsOk(disk, s.path, s.child, n);
    }
    hide ChildOk, ClientOk, Room, Payload;
  }

  lemma FailureKeepsOk(disk: Disk, path: Path, c: Child)
    requires ChildOk(disk, path, c)
    ensures c.pc == ReadFile ==> ChildOk(disk, path, c.(cut := c.rest != [], pc := SendEnd))
    ensures c.pc == SendData ==>
      ChildOk(disk, path, c.(cut := true, rest := c.held + c.rest, held := [], pc := SendEnd))
  {
    hide Payload;
    assert Payload(c.sent) + c.held + c.rest == Payload(c.sent) + (c.held + c.rest);
  }

  lemma OutputReadKeepsOk(disk: Disk, path: Path, c: Child, chunk: seq<byte>)
    requires ChildOk(disk, path, c) && IsOutput(disk, path) && |chunk| <= RESP_MSG_SIZE
    ensures c.pc == OpenFile ==> forall next :: next in {ReadFile, SendFailure} ==> ChildOk(disk, path, c.(pc := next))
    ensures c.pc == ReadFile ==> ChildOk(disk, path, TakeChunk(c, chunk))
  {
    assert Payload([]) == [];
    hide Payload;
  }

  lemma ActionKeepsOk(disk: Disk, qbytes: nat, s: Session, a: Action)
    requires SessionOk(disk, s) && CanAct(disk, qbytes, s, a)
    ensures SessionOk(disk, Do(disk, qbytes, s, a))
  {
    assert s.child.pc != NotForked ==> s.child.path == s.path;
    hide ChildOk, ClientOk, Room;
    match a
    case ClientAct => ClientKeepsOk(disk, qbytes, s);
    case ChildAct(n) => ChildKeepsOk(disk, qbytes, s, n);
    case OpensOutput(_) => OutputReadKeepsOk(disk, s.path, s.child, []);
    case ReadsOutput(chunk) => OutputReadKeepsOk(disk, s.path, s.child, chunk);
    case ReadFails => FailureKeepsOk(disk, s.path, s.child);
    case SendFails => FailureKeepsOk(disk, s.path, s.child);
  }

  /** A client that found its own bytes in the output file leaves it so; only a statement that has the file open
      afterwards changes it. */
  lemma OutputFollows(disk: Disk, qbytes: nat, s: Session, a: Action, file: seq<byte>)
    requires SessionOk(disk, s) && CanAct(disk, qbytes, s, a) && (FileOpen(s.client) ==> file == s.client.written)
    ensures
      var c := Do(disk, qbytes, s, a).client;
      var after := OutputAfter(file, s.client, a);
      && (FileOpen(c) ==> after == c.written)
      && (!FileOpen(c) ==> after == file)
  {
    hide ChildOk, ClientOk, ChildLocal, ClientLocal, WriteAt, Room;
    if a == ClientAct && !Receives(s.client.pc) {
      WrittenFollows(s.path, s.client, file);
    }
  }

  lemma WrittenFollows(path: Path, c: Client, file: seq<byte>)
    requires ClientOk(path, c) && !Receives(c.pc) && c.pc != SendRequest && c.pc != Gone
    requires FileOpen(c) ==> file == c.written
    ensures
      var d := ClientLocal(path, c);
      var after := OutputAfter(file, c, ClientAct);
      if FileOpen(d) then after == d.written else after == file
  {
    hide Recorded, Ended, Payload;
  }

  // ---------------------------------------------------------------------------------------------
  // What the invariant gives the client

  /** Taken from the queue, not yet written out. */
  function Pending(c: Client): seq<byte> {
    if c.pc in {HandleFirst, WriteFirst, HandleNext} then c.resp.data else []
  }

  /** The part of the file the child has neither sent nor holds; all of a fixed file before the child opens it. */
  function Unsent(disk: Disk, s: Session): seq<byte> {
    if s.child.pc in {NotForked, OpenFile} && IsFixed(disk, s.path) then disk[s.path].bytes else s.child.rest
  }

  /** No byte is lost, duplicated or reordered on its way from the file, or from what the child has read of the output
      file, to the client's output. A client that was refused has written nothing, and that never happens for a fixed
      file. */
  predicate SessionConserved(disk: Disk, s: Session) {
    if s.path !in disk || Refused(s.child) then s.client.written == [] && !IsFixed(disk, s.path)
    else
      s.client.written + Pending(s.client) + Payload(s.queue) + s.child.held + Unsent(disk, s)
        == Source(disk, s.path, s.child)
  }

  predicate GrammarKept(s: Session) {
    if s.child.pc == Finished then WholeTransfer(s.path, s.child.sent)
    else ChunksBefore(s.child.sent, |s.child.sent|)
  }

  /** When the client removes its queue, the queue is empty and the child has made its last send. */
  predicate RemovalSafe(s: Session) {
    s.client.pc in {RemoveQueue, Gone} && !Unasked(s.path, s.client) ==> s.queue == [] && s.child.pc == Finished
  }

  /** What the client reports: the bytes it wrote, one message per chunk and one for END. It reports exactly the
      requests that were not refused, a fixed file among them, and then has all of the file exactly when no call failed
      at the cost of bytes; of the output file that is all its child read. */
  predicate ReportOk(disk: Disk, s: Session) {
    && (s.client.reported ==>
          && s.path in disk && s.client.totBytes == |s.client.written|
          && s.client.numMsgs == |s.client.got| && WholeTransfer(s.path, s.client.got)
          && s.client.numMsgs - 1 <= s.client.totBytes <= RESP_MSG_SIZE * (s.client.numMsgs - 1))
    && (s.client.pc == Gone && !Unasked(s.path, s.client) ==>
          && (s.client.reported <==> !Refused(s.child))
          && (IsFixed(disk, s.path) ==> s.client.reported)
          && (s.client.reported ==>
                && s.client.written + s.child.rest == Source(disk, s.path, s.child)
                && (s.client.written == Source(disk, s.path, s.child) <==> !s.child.cut)))
  }

  predicate SessionCorrect(disk: Disk, s: Session) {
    SessionConserved(disk, s) && GrammarKept(s) && RemovalSafe(s) && ReportOk(disk, s)
  }

  lemma TakenIsWrittenOrPending(disk: Disk, s: Session)
    requires SessionOk(disk, s) && !Refused(s.child)
    ensures Payload(s.client.got) == s.client.written + Pending(s.client)
  {
    var c := s.client;
    if c.got == [] {
      assert Payload(c.got) == [];
    } else {
      PayloadLast(c.got);
      assert s.child.sent[0] == c.got[0];
      hide Payload;
    }
  }

  lemma SentAndUnsent(disk: Disk, s: Session)
    requires SessionOk(disk, s) && s.path in disk && !Refused(s.child)
    ensures Payload(s.child.sent) + s.child.held + Unsent(disk, s) == Source(disk, s.path, s.child)
  {
    hide ClientOk, WholeTransfer;
    assert Payload([]) == [];
  }

  lemma OkMeansConserved(disk: Disk, s: Session)
    requires SessionOk(disk, s)
    ensures SessionConserved(disk, s)
  {
    hide ClientOk, ChildOk, Payload, Unsent, Pending, Refused, Source;
    if s.path in disk && !Refused(s.child) {
      TakenIsWrittenOrPending(disk, s);
      PayloadConcat(s.client.got, s.queue);
      SentAndUnsent(disk, s);
    } else {
      NothingForMissingFile(disk, s);
    }
  }

  lemma NothingForMissingFile(disk: Disk, s: Session)
    requires SessionOk(disk, s) && (s.path !in disk || Refused(s.child))
    ensures s.client.written == [] && !s.client.reported && !IsFixed(disk, s.path)
    ensures s.client.got != [] ==>
      s.client.got == s.child.sent == [Message(FailureMsg, FailureText(s.path))]
  {
    if s.client.got != [] {
      assert s.child.sent[0] == s.client.got[0];
      NotChunkIsLast(disk, s.path, s.child, 0);
    }
  }

  lemma OkMeansGrammarKept(disk: Disk, s: Session)
    requires SessionOk(disk, s)
    ensures GrammarKept(s) && RemovalSafe(s)
  {
    if s.client.pc in {RemoveQueue, Gone} && !Unasked(s.path, s.client) {
      FinalMessageEmptiesQueue(disk, s);
    }
  }

  lemma OkMeansReportOk(disk: Disk, s: Session)
    requires SessionOk(disk, s)
    ensures ReportOk(disk, s)
  {
    if s.path !in disk || Refused(s.child) {
      NothingForMissingFile(disk, s);
      if s.client.pc in {RemoveQueue, Gone} && !Unasked(s.path, s.client) {
        FinalMessageEmptiesQueue(disk, s);
      }
    } else if s.client.pc in {RemoveQueue, Gone} && !Unasked(s.path, s.client) {
      FinalMessageEmptiesQueue(disk, s);
      TakenIsWrittenOrPending(disk, s);
      assert s.child.sent == s.client.got;
      WholeTransferCounts(s.path, s.child.sent);
      hide Payload;
    }
  }

  lemma ReportMeansWhole(disk: Disk, s: Session)
    requires SessionOk(disk, s) && (s.client.pc == Report || s.client.reported)
    ensures s.path in disk && !Refused(s.child) && s.child.pc == Finished
    ensures s.client.written == Source(disk, s.path, s.child) <==> !s.child.cut
  {
    FinalMessageEmptiesQueue(disk, s);
    assert s.child.sent == s.client.got;
    hide Payload;
  }

  /** In DATA* END the number of chunks lies between the bytes divided by RESP_MSG_SIZE, rounded up, and the bytes. */
  lemma WholeTransferCounts(path: Path, msgs: seq<Message>)
    requires WholeTransfer(path, msgs) && msgs[0].kind != FailureMsg
    ensures |msgs| - 1 <= |Payload(msgs)| <= RESP_MSG_SIZE * (|msgs| - 1)
  {
    var chunks := msgs[..|msgs| - 1];
    PayloadLast(msgs);
    assert ChunksBefore(msgs, |msgs| - 1);
    forall i | 0 <= i < |chunks|
      ensures 1 <= |Datas(chunks)[i]| <= RESP_MSG_SIZE
    {
      assert IsChunk(msgs[i]);
    }
    ChunkCount(Datas(chunks), RESP_MSG_SIZE);
  }

  lemma OkMeansCorrect(disk: Disk, s: Session)
    requires SessionOk(disk, s)
    ensures SessionCorrect(disk, s)
  {
    hide SessionOk, SessionConserved, GrammarKept, RemovalSafe, ReportOk;
    OkMeansConserved(disk, s);
    OkMeansGrammarKept(disk, s);
    OkMeansReportOk(disk, s);
  }

  // ---------------------------------------------------------------------------------------------
  // Progress of a session

  /** Bytes a file may have: of a fixed file its size, of the output file the bound that is assumed for it. */
  function FileSize(disk: Disk, bound: nat, path: Path): nat {
    if IsFixed(disk, path) then |disk[path].bytes| else if IsOutput(disk, path) then bound else 0
  }

  /** Bytes the child may still read. */
  function Left(disk: Disk, bound: nat, s: Session): nat {
    if !IsOutput(disk, s.path) then |s.child.rest|
    else if |s.child.taken| <= bound then bound - |s.child.taken| else 0
  }

  /** Steps left to the child, at most; one more than for `OpenFile` while it is not forked. */
  function ChildRank(disk: Disk, bound: nat, s: Session): nat {
    match s.child.pc
    case NotForked => 2 * FileSize(disk, bound, s.path) + 4
    case OpenFile => 2 * FileSize(disk, bound, s.path) + 3
    case ReadFile => 2 * Left(disk, bound, s) + 2
    case SendData => 2 * Left(disk, bound, s) + 3
    case Finished => 0
    case _ => 1
  }

  /** Messages the child may still send, at most. */
  function Future(disk: Disk, bound: nat, s: Session): nat {
    match s.child.pc
    case NotForked => FileSize(disk, bound, s.path) + 1
    case OpenFile => FileSize(disk, bound, s.path) + 1
    case ReadFile => Left(disk, bound, s) + 1
    case SendData => Left(disk, bound, s) + 2
    case Finished => 0
    case _ => 1
  }

  /** Steps left to the client, at most; sending the request counts three, for the server's two steps. */
  function ClientRank(disk: Disk, bound: nat, s: Session): nat {
    var m := 3 * (|s.queue| + Future(disk, bound, s));
    match s.client.pc
    case CheckPath => m + 7
    case SendRequest => m + 6
    case ReceiveFirst => m + 3
    case HandleFirst => m + 5
    case WriteFirst => m + 4
    case TestMore => m + 3
    case ReceiveNext => m + 2
    case HandleNext => m + 4
    case Report => 2
    case RemoveQueue => 1
    case Gone => 0
  }

  function Rank(disk: Disk, bound: nat, s: Session): nat {
    ChildRank(disk, bound, s) + ClientRank(disk, bound, s)
  }

  lemma ClientLowersRank(disk: Disk, bound: nat, qbytes: nat, s: Session)
    requires CanAct(disk, qbytes, s, ClientAct)
    ensures Rank(disk, bound, Do(disk, qbytes, s, ClientAct)) < Rank(disk, bound, s)
  {
    hide ChildRank, Future;
    ChildFrame(disk, bound, s, Do(disk, qbytes, s, ClientAct));
  }

  lemma ChildFrame(disk: Disk, bound: nat, s: Session, t: Session)
    requires t.child == s.child && t.path == s.path
    ensures Future(disk, bound, t) == Future(disk, bound, s) && ChildRank(disk, bound, t) == ChildRank(disk, bound, s)
  {
  }

  lemma ChildLowersRank(disk: Disk, bound: nat, qbytes: nat, s: Session, a: Action)
    requires ChildOk(disk, s.path, s.child) && a != ClientAct && CanAct(disk, qbytes, s, a)
    requires a.ReadsOutput? ==> |s.child.taken| + |a.chunk| <= bound
    ensures Rank(disk, bound, Do(disk, qbytes, s, a)) < Rank(disk, bound, s)
  {
    hide ChildRank, Future, ChildOk, ChildLocal, Sent, Room, IsOutput;
    ChildStepLowers(disk, bound, qbytes, s, a);
  }

  lemma ChildStepLowers(disk: Disk, bound: nat, qbytes: nat, s: Session, a: Action)
    requires ChildOk(disk, s.path, s.child) && a != ClientAct && CanAct(disk, qbytes, s, a)
    requires a.ReadsOutput? ==> |s.child.taken| + |a.chunk| <= bound
    ensures
      var t := Do(disk, qbytes, s, a);
      && ChildRank(disk, bound, t) < ChildRank(disk, bound, s)
      && |t.queue| + Future(disk, bound, t) <= |s.queue| + Future(disk, bound, s)
  {
    hide Payload, WholeTransfer, ChunksBefore, Room, Outgoing;
  }

  lemma ActionLowersRank(disk: Disk, bound: nat, qbytes: nat, s: Session, a: Action)
    requires SessionOk(disk, s) && CanAct(disk, qbytes, s, a)
    requires a.ReadsOutput? ==> |s.child.taken| + |a.chunk| <= bound
    ensures Rank(disk, bound, Do(disk, qbytes, s, a)) < Rank(disk, bound, s)
  {
    hide Rank, CanAct, ChildOk, ClientOk;
    if a == ClientAct {
      ClientLowersRank(disk, bound, qbytes, s);
    } else {
      ChildLowersRank(disk, bound, qbytes, s, a);
    }
  }

  /** The request has been sent and no child exists yet. */
  predicate Awaiting(s: Session) {
    s.client.pc == ReceiveFirst && s.child.pc == NotForked
  }

  predicate SessionDone(s: Session) {
    s.client.pc == Gone && (s.child.pc == Finished || Unasked(s.path, s.client))
  }

  lemma ActionKeepsAwaiting(disk: Disk, qbytes: nat, s: Session, a: Action)
    requires SessionOk(disk, s) && CanAct(disk, qbytes, s, a)
    ensures Awaiting(Do(disk, qbytes, s, a)) <==> Awaiting(s)
    ensures Do(disk, qbytes, s, a).path == s.path
  {
    if a == ClientAct {
      if s.child.pc == NotForked {
        assert s.queue == [];
      }
      hide ChildOk, ClientOk;
      ClientKeepsAwaiting(disk, qbytes, s);
    } else {
      hide ChildOk, ClientOk;
      ChildKeepsAwaiting(disk, qbytes, s, a);
    }
  }

  lemma ClientKeepsAwaiting(disk: Disk, qbytes: nat, s: Session)
    requires CanAct(disk, qbytes, s, ClientAct) && (s.child.pc == NotForked ==> s.queue == [])
    ensures
      var t := Do(disk, qbytes, s, ClientAct);
      (Awaiting(t) <==> Awaiting(s)) && t.path == s.path
  {
  }

  lemma ChildKeepsAwaiting(disk: Disk, qbytes: nat, s: Session, a: Action)
    requires CanAct(disk, qbytes, s, a) && a != ClientAct
    ensures
      var t := Do(disk, qbytes, s, a);
      (Awaiting(t) <==> Awaiting(s)) && t.path == s.path
  {
    hide Room, MayRead, Outgoing;
  }

  /** A client still receiving from a finished child finds a message. */
  lemma FinishedLeavesMessage(disk: Disk, s: Session)
    requires SessionOk(disk, s) && Receives(s.client.pc) && s.child.pc == Finished
    ensures s.queue != []
  {
    var got := s.client.got;
    assert s.child.sent[|s.child.sent| - 1].kind != DataMsg;
    assert got != [] ==> s.child.sent[|got| - 1] == got[|got| - 1];
  }

  /** The child is about to open or read the output file; neither blocks. */
  predicate UsesOutput(disk: Disk, c: Child) {
    c.pc in {OpenFile, ReadFile} && IsOutput(disk, c.path)
  }

  /** A session that cannot act without a failing call is done, waits for the server to take its request, or waits for
      its child. A child never waits for good: when the queue is full it is not empty, so the client can receive. */
  lemma SessionProgress(disk: Disk, qbytes: nat, s: Session)
    requires SessionOk(disk, s) && qbytes >= RESP_MSG_SIZE
    requires !CanAct(disk, qbytes, s, ClientAct) && forall n :: !CanAct(disk, qbytes, s, ChildAct(n))
    requires !UsesOutput(disk, s.child)
    ensures SessionDone(s) || s.client.pc == SendRequest || Awaiting(s)
  {
    hide ChildOk, ClientOk;
    if Receives(s.client.pc) {
      ReceiverHasQueue(s.path, s.client);
      if s.child.pc == Finished {
        FinishedLeavesMessage(disk, s);
      } else if s.child.pc != NotForked {
        ChildCanAct(disk, qbytes, s);
      } else {
        UnservedReceivesFirst(disk, s);
      }
    } else if s.client.pc == Gone && !Unasked(s.path, s.client) {
      GoneLeavesFinished(disk, s);
    }
  }

  lemma UnservedReceivesFirst(disk: Disk, s: Session)
    requires SessionOk(disk, s) && Receives(s.client.pc) && s.child.pc == NotForked
    ensures s.client.pc == ReceiveFirst
  {
  }

  lemma GoneLeavesFinished(disk: Disk, s: Session)
    requires SessionOk(disk, s) && s.client.pc == Gone && !Unasked(s.path, s.client)
    ensures s.child.pc == Finished
  {
    FinalMessageEmptiesQueue(disk, s);
  }

  lemma ReceiverHasQueue(path: Path, c: Client)
    requires ClientOk(path, c) && Receives(c.pc)
    ensures c.queueExists && |path| <= PATH_MAX - 1
  {
  }

  lemma ChildCanAct(disk: Disk, qbytes: nat, s: Session)
    requires ChildOk(disk, s.path, s.child) && qbytes >= RESP_MSG_SIZE && s.child.pc !in {NotForked, Finished}
    requires s.client.queueExists && s.queue == [] && !UsesOutput(disk, s.child)
    requires |s.path| <= PATH_MAX - 1
    ensures exists n :: CanAct(disk, qbytes, s, ChildAct(n))
  {
    var n := if s.child.rest == [] then 0 else 1;
    assert Payload(s.queue) == [];
    assert CanAct(disk, qbytes, s, ChildAct(n));
  }

  /** A client that receives has its queue, and so has a child that sends. */
  lemma SessionHasQueue(disk: Disk, s: Session)
    requires SessionOk(disk, s)
    ensures Receives(s.client.pc) || Sends(s.child.pc) ==> s.client.queueExists
  {
    hide Payload, ChildOk, Recorded, Ended;
    if s.client.pc == Gone && !Unasked(s.path, s.client) {
      GoneLeavesFinished(disk, s);
    }
  }
}
