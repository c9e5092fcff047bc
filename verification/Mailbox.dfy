/** POSIX shared-memory mailbox: two semaphores pass one token between a server, which prints the shared buffer,
    and any number of clients, which fill it from their own input. A client that meets the end of its input leaves
    while it holds the token. */
module Mailbox {
  import opened Runs
  import opened Sums

  const DATA_SIZE: nat := 1024

  datatype ServerPc = WaitRead | PrintData | PostWrite
  datatype ClientPc = WaitWrite | Scan | PostRead | Left

  /** `input` is what the client can still read; `whole` is its input at the start and never changes. */
  datatype Client = Client(pc: ClientPc, input: seq<string>, whole: seq<string>)

  datatype Entry = Entry(id: nat, text: string)

  /** `acquired` records which client passed its wait on `write`, in order; `log` every message put into the buffer;
      `printed` what the server printed. */
  datatype State = State(
    readSem: nat, writeSem: nat, data: seq<char>,
    server: ServerPc, clients: seq<Client>,
    acquired: seq<nat>, log: seq<Entry>, printed: seq<string>)

  datatype Event = ClientStep(i: nat) | ServerStep

  /** A word that fits the buffer together with its terminating zero. */
  predicate Fits(text: string) {
    |text| < DATA_SIZE && '\0' !in text
  }

  /** The bytes printf prints: up to the first zero. */
  function CString(data: seq<char>): string {
    if data == [] || data[0] == '\0' then [] else [data[0]] + CString(data[1..])
  }

  /** scanf stores the word and a zero; the rest of the buffer keeps its old bytes. */
  function Store(data: seq<char>, text: string): seq<char>
    requires |text| < |data|
  {
    text + ['\0'] + data[|text| + 1..]
  }

  predicate Enabled(s: State, e: Event) {
    match e
    case ClientStep(i) =>
      && i < |s.clients|
      && (match s.clients[i].pc
          case WaitWrite => s.writeSem > 0
          case Scan => s.clients[i].input != [] ==> |s.clients[i].input[0]| < |s.data|
          case PostRead => true
          case Left => false)
    case ServerStep =>
      && (s.server == WaitRead ==> s.readSem > 0)
      && (s.server == PrintData ==> |s.data| == DATA_SIZE)
  }

  function ClientApply(s: State, i: nat): State
    requires Enabled(s, ClientStep(i))
  {
    var c := s.clients[i];
    match c.pc
    case WaitWrite =>
      s.(writeSem := s.writeSem - 1, acquired := s.acquired + [i], clients := s.clients[i := c.(pc := Scan)])
    case Scan =>
      if c.input == [] then s.(clients := s.clients[i := c.(pc := Left)])
      else
        s.(data := Store(s.data, c.input[0]), log := s.log + [Entry(i, c.input[0])],
           clients := s.clients[i := c.(pc := PostRead, input := c.input[1..])])
    case PostRead => s.(readSem := s.readSem + 1, clients := s.clients[i := c.(pc := WaitWrite)])
  }

  function ServerApply(s: State): State
    requires Enabled(s, ServerStep)
  {
    match s.server
    case WaitRead => s.(readSem := s.readSem - 1, server := PrintData)
    case PrintData =>
      var terminated := s.data[DATA_SIZE - 1 := '\0'];
      s.(data := terminated, printed := s.printed + [CString(terminated)], server := PostWrite)
    case PostWrite => s.(writeSem := s.writeSem + 1, server := WaitRead)
  }

  function Apply(s: State, e: Event): State
    requires Enabled(s, e)
  {
    match e
    case ClientStep(i) => ClientApply(s, i)
    case ServerStep => ServerApply(s)
  }

  ghost predicate Next(s: State, t: State) {
    exists e :: Enabled(s, e) && t == Apply(s, e)
  }

  /** The server has initialised both semaphores; every client is about to wait for the first time. */
  predicate Starting(s: State) {
    && s.readSem == 0 && s.writeSem == 1 && |s.data| == DATA_SIZE && s.server == WaitRead
    && s.acquired == [] && s.log == [] && s.printed == []
    && forall i :: 0 <= i < |s.clients| ==>
         && s.clients[i].pc == WaitWrite && s.clients[i].input == s.clients[i].whole
         && forall k :: 0 <= k < |s.clients[i].whole| ==> Fits(s.clients[i].whole[k])
  }

  // ---------------------------------------------------------------------------------------------
  // The invariant

  function HoldsToken(c: Client): nat {
    if c.pc == WaitWrite then 0 else 1
  }

  function HasFilled(c: Client): nat {
    if c.pc == PostRead then 1 else 0
  }

  function HasTaken(c: Client): nat {
    if c.pc in {Scan, Left} then 1 else 0
  }

  /** There is one token: in a semaphore, with the server, with a client, or lost with a client that left. */
  predicate OneToken(s: State) {
    s.readSem + s.writeSem + Sum(HoldsToken, s.clients) + (if s.server == WaitRead then 0 else 1) == 1
  }

  /** Messages in the buffer and not yet printed: 0 or 1. */
  function Unprinted(s: State): nat {
    s.readSem + Sum(HasFilled, s.clients) + if s.server == PrintData then 1 else 0
  }

  predicate Stored(data: seq<char>, text: string) {
    Fits(text) && |data| == DATA_SIZE && data[..|text|] == text && data[|text|] == '\0'
  }

  /** The mailbox is a one-slot FIFO: what was printed is what was put in, but for a message still in the buffer. */
  predicate OneSlotFifo(s: State) {
    && |s.log| == |s.printed| + Unprinted(s)
    && (forall k :: 0 <= k < |s.printed| ==> s.printed[k] == s.log[k].text)
    && (Unprinted(s) == 1 ==> Stored(s.data, s.log[|s.log| - 1].text))
  }

  /** Messages are put in by the clients in the order they took the token. */
  predicate InOrderTaken(s: State) {
    && |s.acquired| == |s.log| + Sum(HasTaken, s.clients)
    && (forall k :: 0 <= k < |s.log| ==> s.acquired[k] == s.log[k].id)
    && (forall i :: 0 <= i < |s.clients| && HasTaken(s.clients[i]) == 1 ==>
          |s.acquired| == |s.log| + 1 && s.acquired[|s.log|] == i)
  }

  /** The messages of client `i`, in the order they were put in. */
  function Of(log: seq<Entry>, i: nat): seq<string> {
    if log == [] then []
    else
      var before := Of(log[..|log| - 1], i);
      if log[|log| - 1].id == i then before + [log[|log| - 1].text] else before
  }

  predicate OwnOrderKept(s: State) {
    forall i :: 0 <= i < |s.clients| ==> Of(s.log, i) + s.clients[i].input == s.clients[i].whole
  }

  predicate InputsFit(s: State) {
    && |s.data| == DATA_SIZE
    && forall i :: 0 <= i < |s.clients| ==>
         forall k :: 0 <= k < |s.clients[i].input| ==> Fits(s.clients[i].input[k])
  }

  predicate Inv(s: State) {
    OneToken(s) && OneSlotFifo(s) && InOrderTaken(s) && OwnOrderKept(s) && InputsFit(s)
  }

  lemma StartInv(s: State)
    requires Starting(s)
    ensures Inv(s)
  {
    SumZero(HoldsToken, s.clients);
    SumZero(HasFilled, s.clients);
    SumZero(HasTaken, s.clients);
  }

  lemma {:induction false} CStringStops(text: string, rest: seq<char>)
    requires '\0' !in text && rest != [] && rest[0] == '\0'
    ensures CString(text + rest) == text
  {
    if text == [] {
      assert text + rest == rest;
    } else {
      assert (text + rest)[1..] == text[1..] + rest;
      CStringStops(text[1..], rest);
    }
  }

  /** What the server prints of a stored word is that word, whatever older bytes lie behind it. */
  lemma PrintsStored(data: seq<char>, text: string)
    requires Stored(data, text)
    ensures CString(data[DATA_SIZE - 1 := '\0']) == text
  {
    var terminated := data[DATA_SIZE - 1 := '\0'];
    assert terminated == text + terminated[|text|..];
    CStringStops(text, terminated[|text|..]);
  }

  lemma OfAppend(log: seq<Entry>, e: Entry, i: nat)
    ensures Of(log + [e], i) == Of(log, i) + if e.id == i then [e.text] else []
  {
    assert (log + [e])[..|log|] == log;
  }

  lemma SumsUpdate(clients: seq<Client>, i: nat, c: Client)
    requires i < |clients|
    ensures Sum(HoldsToken, clients[i := c]) + HoldsToken(clients[i]) == Sum(HoldsToken, clients) + HoldsToken(c)
    ensures Sum(HasFilled, clients[i := c]) + HasFilled(clients[i]) == Sum(HasFilled, clients) + HasFilled(c)
    ensures Sum(HasTaken, clients[i := c]) + HasTaken(clients[i]) == Sum(HasTaken, clients) + HasTaken(c)
    ensures HoldsToken(clients[i]) <= Sum(HoldsToken, clients)
    ensures Sum(HasFilled, clients) + Sum(HasTaken, clients) == Sum(HoldsToken, clients)
  {
    SumUpdate(HoldsToken, clients, i, c);
    SumUpdate(HasFilled, clients, i, c);
    SumUpdate(HasTaken, clients, i, c);
    HoldersSplit(clients);
  }

  /** Whoever holds the token has either just taken it or already filled the buffer. */
  lemma {:induction false} HoldersSplit(clients: seq<Client>)
    ensures Sum(HasFilled, clients) + Sum(HasTaken, clients) == Sum(HoldsToken, clients)
  {
    if clients == [] {
    } else {
      HoldersSplit(clients[1..]);
    }
  }

  /** A client that holds the token is the only process that does. */
  lemma SoleHolder(s: State, i: nat)
    requires OneToken(s) && i < |s.clients| && s.clients[i].pc != WaitWrite
    ensures s.readSem == 0 && s.writeSem == 0 && s.server == WaitRead
    ensures forall j :: 0 <= j < |s.clients| && j != i ==> s.clients[j].pc == WaitWrite
  {
    SumUpdate(HoldsToken, s.clients, i, s.clients[i]);
    forall j | 0 <= j < |s.clients| && j != i
      ensures s.clients[j].pc == WaitWrite
    {
      if i < j {
        SumUnique(HoldsToken, s.clients, i, j);
      } else {
        SumUnique(HoldsToken, s.clients, j, i);
      }
    }
  }

  lemma WaitKeepsInv(s: State, i: nat)
    requires Inv(s) && Enabled(s, ClientStep(i)) && s.clients[i].pc == WaitWrite
    ensures Inv(ClientApply(s, i))
  {
    var t := ClientApply(s, i);
    SumsUpdate(s.clients, i, t.clients[i]);
    SoleHolder(t, i);
  }

  lemma ScanKeepsInv(s: State, i: nat)
    requires Inv(s) && Enabled(s, ClientStep(i)) && s.clients[i].pc == Scan && s.clients[i].input != []
    ensures Inv(ClientApply(s, i))
  {
    var t := ClientApply(s, i);
    var text := s.clients[i].input[0];
    SumsUpdate(s.clients, i, t.clients[i]);
    SoleHolder(s, i);
    assert Stored(t.data, text);
    forall j | 0 <= j < |t.clients|
      ensures Of(t.log, j) + t.clients[j].input == t.clients[j].whole
    {
      OfAppend(s.log, Entry(i, text), j);
      assert Of(s.log, i) + s.clients[i].input == Of(s.log, i) + [text] + s.clients[i].input[1..];
    }
  }

  lemma LeaveKeepsInv(s: State, i: nat)
    requires Inv(s) && Enabled(s, ClientStep(i)) && s.clients[i].pc == Scan && s.clients[i].input == []
    ensures Inv(ClientApply(s, i))
  {
    SumsUpdate(s.clients, i, ClientApply(s, i).clients[i]);
  }

  lemma PostKeepsInv(s: State, i: nat)
    requires Inv(s) && Enabled(s, ClientStep(i)) && s.clients[i].pc == PostRead
    ensures Inv(ClientApply(s, i))
  {
    SumsUpdate(s.clients, i, ClientApply(s, i).clients[i]);
  }

  lemma ServerKeepsInv(s: State)
    requires Inv(s) && Enabled(s, ServerStep)
    ensures Inv(ServerApply(s))
  {
    HoldersSplit(s.clients);
    if s.server == PrintData {
      PrintsStored(s.data, s.log[|s.log| - 1].text);
    }
  }

  lemma StepKeepsInv(s: State, t: State)
    requires Inv(s) && Next(s, t)
    ensures Inv(t)
  {
    hide Inv, ServerApply, ClientApply;
    var e :| Enabled(s, e) && t == Apply(s, e);
    match e
    case ServerStep => ServerKeepsInv(s);
    case ClientStep(i) =>
      match s.clients[i].pc
      case WaitWrite => WaitKeepsInv(s, i);
      case PostRead => PostKeepsInv(s, i);
      case Scan =>
        if s.clients[i].input == [] {
          LeaveKeepsInv(s, i);
        } else {
          ScanKeepsInv(s, i);
        }
  }

  // ---------------------------------------------------------------------------------------------
  // Every run

  /** The clients stay the same, and so do their whole inputs. */
  predicate SameClients(s: State, t: State) {
    |t.clients| == |s.clients| && forall i :: 0 <= i < |s.clients| ==> t.clients[i].whole == s.clients[i].whole
  }

  /** At most one process is between its wait and its post, or has left in between; no token is ever made or copied. */
  predicate Exclusive(s: State) {
    && s.readSem + s.writeSem <= 1
    && (forall i :: 0 <= i < |s.clients| && s.clients[i].pc != WaitWrite ==>
          && s.server == WaitRead && s.readSem == 0 && s.writeSem == 0
          && forall j :: 0 <= j < |s.clients| && j != i ==> s.clients[j].pc == WaitWrite)
    && (s.server != WaitRead ==> s.readSem == 0 && s.writeSem == 0)
  }

  /** What is printed is a prefix, at most one short, of the messages in the order in which their clients took the
      token, and each client's messages keep that client's order. */
  predicate PrintsInOrder(s: State) {
    && |s.printed| <= |s.log| <= |s.printed| + 1 && |s.log| <= |s.acquired| <= |s.log| + 1
    && (forall k :: 0 <= k < |s.printed| ==> s.printed[k] == s.log[k].text)
    && (forall k :: 0 <= k < |s.log| ==> s.log[k].id == s.acquired[k])
    && (forall i :: 0 <= i < |s.clients| ==> Of(s.log, i) + s.clients[i].input == s.clients[i].whole)
  }

  lemma InvMeansExclusive(s: State)
    requires Inv(s)
    ensures Exclusive(s)
  {
    forall i | 0 <= i < |s.clients| && s.clients[i].pc != WaitWrite
      ensures s.server == WaitRead && s.readSem == 0 && s.writeSem == 0
      ensures forall j :: 0 <= j < |s.clients| && j != i ==> s.clients[j].pc == WaitWrite
    {
      SoleHolder(s, i);
    }
  }

  lemma InvMeansPrintsInOrder(s: State)
    requires Inv(s)
    ensures PrintsInOrder(s)
  {
    HoldersSplit(s.clients);
  }

  lemma StepKeepsClients(s: State, t: State)
    requires Next(s, t)
    ensures SameClients(s, t)
  {
    var e :| Enabled(s, e) && t == Apply(s, e);
  }

  lemma RunKeepsInv(run: seq<State>)
    requires IsRun(Next, run) && Starting(run[0])
    ensures forall k :: 0 <= k < |run| ==> Inv(run[k]) && SameClients(run[0], run[k])
  {
    hide Inv, Next;
    var start := run[0];
    var inv := (s: State) => Inv(s) && SameClients(start, s);
    forall s, t | inv(s) && Next(s, t)
      ensures inv(t)
    {
      StepKeepsInv(s, t);
      StepKeepsClients(s, t);
    }
    StartInv(start);
    InvariantHolds(Next, inv, run);
    assert forall k :: 0 <= k < |run| ==> inv(run[k]);
  }

  /** Main theorem, for any number of clients and every interleaving. */
  lemma MailboxIsSafe(run: seq<State>)
    requires IsRun(Next, run) && Starting(run[0])
    ensures forall k :: 0 <= k < |run| ==>
      OneToken(run[k]) && Exclusive(run[k]) && PrintsInOrder(run[k]) && SameClients(run[0], run[k])
  {
    hide Inv, Next;
    RunKeepsInv(run);
    forall k | 0 <= k < |run|
      ensures OneToken(run[k]) && Exclusive(run[k]) && PrintsInOrder(run[k])
    {
      InvHasOneToken(run[k]);
      InvMeansExclusive(run[k]);
      InvMeansPrintsInOrder(run[k]);
    }
  }

  lemma InvHasOneToken(s: State)
    requires Inv(s)
    ensures OneToken(s)
  {
  }

  ghost predicate Stuck(s: State) {
    forall e :: !Enabled(s, e)
  }

  /** A client that is about to take the token waits exactly until all that was ever taken has been printed and the
      server has passed it on; nothing else blocks a client that has not left. */
  lemma ClientBlocksExactly(s: State, i: nat)
    requires Inv(s) && i < |s.clients|
    ensures Enabled(s, ClientStep(i)) <==>
      match s.clients[i].pc
      case WaitWrite => |s.printed| == |s.acquired| && s.server == WaitRead
      case Left => false
      case _ => true
  {
    HoldersSplit(s.clients);
    hide Sum, Of;
  }

  /** The server waits exactly until a message has been put in and its client has posted. */
  lemma ServerBlocksExactly(s: State)
    requires Inv(s)
    ensures Enabled(s, ServerStep) <==>
      (s.server == WaitRead ==>
         |s.printed| < |s.log| && forall i :: 0 <= i < |s.clients| ==> s.clients[i].pc != PostRead)
  {
    HoldersSplit(s.clients);
    SumZero(HasFilled, s.clients);
    hide Sum, Of;
  }

  ghost predicate SomebodyLeft(s: State) {
    exists i :: 0 <= i < |s.clients| && s.clients[i].pc == Left
  }

  /** The mailbox stops exactly when a client has left, and taken the token with it. */
  lemma StuckExactly(s: State)
    requires Inv(s) && s.clients != []
    ensures Stuck(s) <==> SomebodyLeft(s)
  {
    SumZero(HoldsToken, s.clients);
    if i :| 0 <= i < |s.clients| && s.clients[i].pc == Left {
      SoleHolder(s, i);
    } else if i :| 0 <= i < |s.clients| && s.clients[i].pc != WaitWrite {
      assert InputsFit(s);
      assert Enabled(s, ClientStep(i));
    } else {
      assert Enabled(s, ServerStep) || Enabled(s, ClientStep(0));
    }
  }

  /** Client `i` alone has left, with its whole input printed; the others wait, each with a part of its input printed,
      and everything that was ever put into the buffer has been printed, in order. */
  predicate EndedBy(start: State, last: State, i: nat) {
    && i < |last.clients| == |start.clients| && last.clients[i].pc == Left
    && (forall j :: 0 <= j < |last.clients| && j != i ==> last.clients[j].pc == WaitWrite)
    && Of(last.log, i) == start.clients[i].whole
    && (forall j :: 0 <= j < |last.clients| ==> Of(last.log, j) <= start.clients[j].whole)
    && |last.printed| == |last.log| <= |last.acquired|
    && (forall k :: 0 <= k < |last.log| ==> last.printed[k] == last.log[k].text && last.acquired[k] == last.log[k].id)
  }

  /** A run that cannot go on was ended by one client's end of input. */
  lemma CompleteRunPrints(run: seq<State>)
    requires IsRun(Next, run) && Starting(run[0]) && Stuck(run[|run| - 1]) && run[0].clients != []
    ensures var start, last := run[0], run[|run| - 1]; exists i: nat :: EndedBy(start, last, i)
  {
    hide Next, Inv, Stuck, LeaversAreDone, EndedBy;
    RunKeepsInv(run);
    var start, last := run[0], run[|run| - 1];
    StuckExactly(last);
    var i: nat :| i < |last.clients| && last.clients[i].pc == Left;
    NobodyLeftUnread(run);
    LeaverEnds(start, last, i);
  }

  lemma LeaverEnds(start: State, last: State, i: nat)
    requires Inv(last) && SameClients(start, last) && LeaversAreDone(last)
    requires i < |last.clients| && last.clients[i].pc == Left
    ensures EndedBy(start, last, i)
  {
    SoleHolder(last, i);
    NothingUnprinted(last, i);
    InvMeansPrintsInOrder(last);
    hide Inv, Of;
    assert forall j :: 0 <= j < |last.clients| ==> Of(last.log, j) + last.clients[j].input == last.clients[j].whole;
  }

  lemma NothingUnprinted(s: State, i: nat)
    requires Inv(s) && i < |s.clients| && s.clients[i].pc == Left
    ensures |s.log| == |s.printed|
  {
    SumsUpdate(s.clients, i, s.clients[i]);
    SumUpdate(HasTaken, s.clients, i, s.clients[i]);
  }

  predicate LeaversAreDone(s: State) {
    forall i :: 0 <= i < |s.clients| && s.clients[i].pc == Left ==> s.clients[i].input == []
  }

  /** A client leaves only at the end of its input. */
  lemma NobodyLeftUnread(run: seq<State>)
    requires IsRun(Next, run) && Starting(run[0])
    ensures LeaversAreDone(run[|run| - 1])
  {
    forall s, t | LeaversAreDone(s) && Next(s, t)
      ensures LeaversAreDone(t)
    {
      var e :| Enabled(s, e) && t == Apply(s, e);
    }
    InvariantHolds(Next, LeaversAreDone, run);
  }

  // ---------------------------------------------------------------------------------------------
  // Whose words are printed

  /** A client with something to say has the mailbox to itself. */
  predicate SpeakersAreAlone(start: State) {
    forall j :: 0 <= j < |start.clients| && start.clients[j].whole != [] ==> |start.clients| == 1
  }

  /** The server printed what was put into the buffer, and that is every client's whole input. */
  predicate AllPrinted(start: State, last: State) {
    && |last.printed| == |last.log| && (forall k :: 0 <= k < |last.log| ==> last.printed[k] == last.log[k].text)
    && forall j :: 0 <= j < |start.clients| ==> Of(last.log, j) == start.clients[j].whole
  }

  /** Every run prints every client's words before it stops exactly when no client with words has another beside it. */
  lemma AllPrintedExactly(start: State)
    requires Starting(start)
    ensures (forall run :: IsRun(Next, run) && run[0] == start && Stuck(run[|run| - 1]) ==>
              AllPrinted(start, run[|run| - 1]))
       <==> SpeakersAreAlone(start)
  {
    hide Next, Stuck, Starting, Of;
    if SpeakersAreAlone(start) {
      forall run | IsRun(Next, run) && run[0] == start && Stuck(run[|run| - 1])
        ensures AllPrinted(start, run[|run| - 1])
      {
        if start.clients != [] {
          CompleteRunPrints(run);
          var i: nat :| EndedBy(start, run[|run| - 1], i);
        } else {
          RunKeepsInv(run);
          NoClientsNoWords(run[|run| - 1]);
        }
      }
    } else {
      var j :| 0 <= j < |start.clients| && start.clients[j].whole != [] && |start.clients| != 1;
      var run := LeaverSilencesOthers(start, if j == 0 then 1 else 0);
      assert Of(run[|run| - 1].log, j) == [];
    }
  }

  lemma NoClientsNoWords(s: State)
    requires Inv(s) && Stuck(s) && s.clients == []
    ensures |s.printed| == |s.log| && forall k :: 0 <= k < |s.log| ==> s.printed[k] == s.log[k].text
  {
    assert !Enabled(s, ServerStep);
  }

  /** Client `i` runs alone until it meets the end of its input: its words are printed, and no word of any other client
      ever will be. */
  lemma LeaverSilencesOthers(start: State, i: nat) returns (run: seq<State>)
    requires Starting(start) && i < |start.clients|
    ensures IsRun(Next, run) && run[0] == start && Stuck(run[|run| - 1])
    ensures
      var log := run[|run| - 1].log;
      && Of(log, i) == start.clients[i].whole
      && forall j :: 0 <= j < |start.clients| && j != i ==> Of(log, j) == []
  {
    hide Next, Stuck, Of;
    run := RunAlone([start], i);
    RunKeepsInv(run);
    NobodyLeftUnread(run);
    var last := run[|run| - 1];
    StuckExactly(last);
    assert OwnOrderKept(last);
    forall j | 0 <= j < |start.clients| && j != i
      ensures Of(last.log, j) == []
    {
      assert Of(last.log, j) + last.clients[j].input == last.clients[j].whole == start.clients[j].input;
      assert last.clients[j].input == start.clients[j].input;
    }
  }

  /** The token is free and client `i` may take it. */
  predicate Idle(s: State, i: nat) {
    && s.writeSem > 0 && s.readSem == 0 && s.server == WaitRead && |s.data| == DATA_SIZE
    && i < |s.clients| && s.clients[i].pc == WaitWrite
    && forall k :: 0 <= k < |s.clients[i].input| ==> Fits(s.clients[i].input[k])
  }

  lemma {:induction false} RunAlone(run: seq<State>, i: nat) returns (longer: seq<State>)
    requires IsRun(Next, run) && Idle(run[|run| - 1], i)
    ensures IsRun(Next, longer) && longer[0] == run[0]
    ensures
      var s, t := run[|run| - 1], longer[|longer| - 1];
      && |t.clients| == |s.clients| && t.clients[i].pc == Left
      && forall j :: 0 <= j < |s.clients| && j != i ==> t.clients[j] == s.clients[j]
    decreases |run[|run| - 1].clients[i].input|
  {
    if run[|run| - 1].clients[i].input == [] {
      longer := Go(run, ClientStep(i));
      longer := Go(longer, ClientStep(i));
    } else {
      longer := OneWord(run, i);
      longer := RunAlone(longer, i);
    }
  }

  /** Client `i` puts in its next word and the server prints it. */
  lemma OneWord(run: seq<State>, i: nat) returns (longer: seq<State>)
    requires IsRun(Next, run) && Idle(run[|run| - 1], i) && run[|run| - 1].clients[i].input != []
    ensures IsRun(Next, longer) && longer[0] == run[0]
    ensures
      var s, t := run[|run| - 1], longer[|longer| - 1];
      && Idle(t, i) && t.clients == s.clients[i := s.clients[i].(input := s.clients[i].input[1..])]
  {
    hide CString;
    assert Fits(run[|run| - 1].clients[i].input[0]);
    longer := Go(run, ClientStep(i));
    longer := Go(longer, ClientStep(i));
    longer := Go(longer, ClientStep(i));
    longer := Go(longer, ServerStep);
    longer := Go(longer, ServerStep);
    longer := Go(longer, ServerStep);
  }

  /** The run goes on with event `e`. */
  lemma Go(run: seq<State>, e: Event) returns (longer: seq<State>)
    requires IsRun(Next, run) && Enabled(run[|run| - 1], e)
    ensures IsRun(Next, longer) && longer[0] == run[0] && longer[|longer| - 1] == Apply(run[|run| - 1], e)
  {
    var t := Apply(run[|run| - 1], e);
    ExtendRun(Next, run, t);
    longer := run + [t];
  }

  // ---------------------------------------------------------------------------------------------
  // Termination

  /** Steps left to a client and to the server on its account, at most. */
  function ClientRank(c: Client): nat {
    match c.pc
    case WaitWrite => 6 * |c.input| + 2
    case Scan => 6 * |c.input| + 1
    case PostRead => 6 * |c.input| + 6
    case Left => 0
  }

  function Measure(s: State): nat {
    Sum(ClientRank, s.clients) + 3 * s.readSem
      + match s.server case WaitRead => 0 case PrintData => 2 case PostWrite => 1
  }

  lemma StepLowersMeasure(s: State, t: State)
    requires Next(s, t)
    ensures Measure(t) < Measure(s)
  {
    hide Measure, ClientApply, ServerApply;
    var e :| Enabled(s, e) && t == Apply(s, e);
    match e
    case ClientStep(i) => ClientLowersMeasure(s, i);
    case ServerStep => ServerLowersMeasure(s);
  }

  lemma ClientLowersMeasure(s: State, i: nat)
    requires Enabled(s, ClientStep(i))
    ensures Measure(ClientApply(s, i)) < Measure(s)
  {
    SumUpdate(ClientRank, s.clients, i, ClientApply(s, i).clients[i]);
    hide Sum, Store;
  }

  lemma ServerLowersMeasure(s: State)
    requires Enabled(s, ServerStep)
    ensures Measure(ServerApply(s)) < Measure(s)
  {
    hide Sum, CString;
  }

  function Cost(c: Client): nat {
    6 * |c.whole| + 2
  }

  /** Every run ends, after at most six steps for each word of input and two for each client. */
  lemma RunTerminates(run: seq<State>)
    requires IsRun(Next, run) && Starting(run[0])
    ensures |run| - 1 <= Sum(Cost, run[0].clients)
  {
    hide Next, Measure;
    forall s, t | Next(s, t)
      ensures Measure(t) < Measure(s)
    {
      StepLowersMeasure(s, t);
    }
    RunIsBounded(Next, _ => true, Measure, run);
    StartMeasure(run[0]);
  }

  lemma StartMeasure(s: State)
    requires Starting(s)
    ensures Measure(s) == Sum(Cost, s.clients)
  {
    SumEqual(ClientRank, Cost, s.clients);
  }
}
