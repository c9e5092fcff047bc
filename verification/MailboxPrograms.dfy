/** The server and the clients of `posix_shm_demo.c` as statements over the shared segment's two semaphores and its
    character array. A wait that would block changes nothing and returns false. */
module MailboxPrograms {
  import opened Runs
  import opened Mailbox

  class SharedMailbox {
    var readSem: nat
    var writeSem: nat
    const data: array<char>
    var server: ServerPc
    var clients: seq<Client>
    ghost var acquired: seq<nat>
    ghost var log: seq<Entry>
    var printed: seq<string>

    ghost function View(): State
      reads this, data
    {
      State(readSem, writeSem, data[..], server, clients, acquired, log, printed)
    }

    ghost predicate Valid()
      reads this, data
    {
      Inv(View())
    }

    /** The server's initialisation of the segment, with one client for each input. */
    constructor (inputs: seq<seq<string>>)
      requires forall i :: 0 <= i < |inputs| ==> forall k :: 0 <= k < |inputs[i]| ==> Fits(inputs[i][k])
      ensures Valid() && Starting(View()) && fresh(data)
      ensures |clients| == |inputs| && forall i :: 0 <= i < |inputs| ==> clients[i].whole == inputs[i]
    {
      this.readSem, this.writeSem, this.server := 0, 1, ServerPc.WaitRead;
      this.data := new char[DATA_SIZE];
      this.clients := seq(|inputs|, i requires 0 <= i < |inputs| => Client(WaitWrite, inputs[i], inputs[i]));
      this.acquired, this.log, this.printed := [], [], [];
      new;
      StartInv(View());
    }

    method ClientWaits(i: nat) returns (moved: bool)
      requires Valid() && i < |clients| && clients[i].pc == WaitWrite
      modifies this
      ensures Valid()
      ensures moved <==> old(Enabled(View(), ClientStep(i)))
      ensures View() == if moved then old(Apply(View(), ClientStep(i))) else old(View())
    {
      hide Inv;
      ghost var before := View();
      moved := writeSem > 0;
      if moved {
        writeSem := writeSem - 1;
        acquired := acquired + [i];
        clients := clients[i := clients[i].(pc := Scan)];
        WaitKeepsInv(before, i);
      }
    }

    /** scanf: stores the next word and its zero over the first bytes of the buffer, or meets the end of the input. */
    method ClientScans(i: nat)
      requires Valid() && i < |clients| && clients[i].pc == Scan
      modifies this, data
      ensures Valid()
      ensures old(Enabled(View(), ClientStep(i))) && View() == old(Apply(View(), ClientStep(i)))
    {
      ghost var before := View();
      assert InputsFit(before);
      hide Inv;
      var c := clients[i];
      if c.input == [] {
        clients := clients[i := c.(pc := Left)];
        LeaveKeepsInv(before, i);
      } else {
        var text := c.input[0];
        assert Fits(text);
        forall k | 0 <= k < |text| {
          data[k] := text[k];
        }
        data[|text|] := '\0';
        assert data[..] == Store(before.data, text);
        log := log + [Entry(i, text)];
        clients := clients[i := c.(pc := PostRead, input := c.input[1..])];
        ScanKeepsInv(before, i);
      }
    }

    method ClientPosts(i: nat)
      requires Valid() && i < |clients| && clients[i].pc == PostRead
      modifies this
      ensures Valid()
      ensures old(Enabled(View(), ClientStep(i))) && View() == old(Apply(View(), ClientStep(i)))
    {
      hide Inv;
      ghost var before := View();
      readSem := readSem + 1;
      clients := clients[i := clients[i].(pc := WaitWrite)];
      PostKeepsInv(before, i);
    }

    method ServerWaits() returns (moved: bool)
      requires Valid() && server == WaitRead
      modifies this
      ensures Valid()
      ensures moved <==> old(Enabled(View(), ServerStep))
      ensures View() == if moved then old(Apply(View(), ServerStep)) else old(View())
    {
      hide Inv;
      ghost var before := View();
      moved := readSem > 0;
      if moved {
        readSem, server := readSem - 1, PrintData;
        ServerKeepsInv(before);
      }
    }

    /** Terminates the buffer in its last byte and prints it. */
    method ServerPrints()
      requires Valid() && server == PrintData
      modifies this, data
      ensures Valid()
      ensures old(Enabled(View(), ServerStep)) && View() == old(Apply(View(), ServerStep))
    {
      ghost var before := View();
      assert InputsFit(before);
      hide Inv;
      data[DATA_SIZE - 1] := '\0';
      assert data[..] == before.data[DATA_SIZE - 1 := '\0'];
      printed := printed + [CString(data[..])];
      server := PostWrite;
      ServerKeepsInv(before);
    }

    method ServerPosts()
      requires Valid() && server == PostWrite
      modifies this
      ensures Valid()
      ensures old(Enabled(View(), ServerStep)) && View() == old(Apply(View(), ServerStep))
    {
      hide Inv;
      ghost var before := View();
      writeSem, server := writeSem + 1, WaitRead;
      ServerKeepsInv(before);
    }

    /** Process `j` tries its next statement: the client of that number, or the server. */
    method Turn(j: nat) returns (moved: bool)
      requires Valid()
      modifies this, data
      ensures moved <==> old(Enabled(View(), StepOf(View(), j)))
      ensures View() == old(Attempt(View(), j)) && (!moved ==> View() == old(View()))
      ensures Valid()
    {
      hide Inv, Apply;
      moved := true;
      if j >= |clients| {
        match server {
          case WaitRead => moved := ServerWaits();
          case PrintData => ServerPrints();
          case PostWrite => ServerPosts();
        }
      } else {
        match clients[j].pc {
          case WaitWrite => moved := ClientWaits(j);
          case Scan => ClientScans(j);
          case PostRead => ClientPosts(j);
          case Left => moved := false;
        }
      }
    }

    /** All programs under a schedule: the processes named in `turns` are tried in that order, and then all of them one
        after the other until none can move; `picks` are all these attempts. It always ends, by one client's end of
        input, with everything printed that was ever put in; and with every client's whole input printed if the clients
        that have words have no other beside them. */
    method RunToEnd(turns: seq<nat>) returns (ghost picks: seq<nat>)
      requires Valid() && Starting(View())
      modifies this, data
      ensures turns <= picks && View() == Replay(Attempt, old(View()), picks)
      ensures Valid() && Stuck(View())
      ensures old(clients) != [] ==> exists i: nat :: EndedBy(old(View()), View(), i)
      ensures old(SpeakersAreAlone(View())) ==> AllPrinted(old(View()), View())
    {
      hide Inv, Attempt, Enabled, Starting, EndedBy, AllPrinted, SpeakersAreAlone;
      ghost var start := View();
      picks := [];
      var moved: bool;
      for k := 0 to |turns|
        invariant Valid() && picks == turns[..k] && View() == Replay(Attempt, start, picks)
      {
        ReplayOneMore(Attempt, start, picks, turns[k]);
        moved := Turn(turns[k]);
        picks := picks + [turns[k]];
      }
      var blocked: nat := 0;
      while blocked <= |clients|
        invariant Valid() && turns <= picks && View() == Replay(Attempt, start, picks)
        invariant forall j: nat :: j < blocked ==> !Enabled(View(), StepOf(View(), j))
        decreases Measure(View()), |clients| + 1 - blocked
      {
        ReplayOneMore(Attempt, start, picks, blocked);
        TurnLowers(View(), blocked);
        moved := Turn(blocked);
        picks := picks + [blocked];
        blocked := if moved then 0 else blocked + 1;
      }
      AllBlocked(View());
      EndIsAsPromised(start, picks);
    }
  }

  /** The next statement of process `j`. */
  function StepOf(s: State, j: nat): Event {
    if j < |s.clients| then ClientStep(j) else ServerStep
  }

  function Attempt(s: State, j: nat): State {
    if Enabled(s, StepOf(s, j)) then Apply(s, StepOf(s, j)) else s
  }

  lemma TurnLowers(s: State, j: nat)
    ensures Enabled(s, StepOf(s, j)) ==> Measure(Attempt(s, j)) < Measure(s)
  {
    hide Measure, Apply;
    if Enabled(s, StepOf(s, j)) {
      assert Next(s, Attempt(s, j));
      StepLowersMeasure(s, Attempt(s, j));
    }
  }

  lemma AllBlocked(s: State)
    requires forall j: nat :: j <= |s.clients| ==> !Enabled(s, StepOf(s, j))
    ensures Stuck(s)
  {
    forall e: Event
      ensures !Enabled(s, e)
    {
      match e
      case ClientStep(i) => assert !Enabled(s, StepOf(s, if i < |s.clients| then i else 0));
      case ServerStep => assert !Enabled(s, StepOf(s, |s.clients|));
    }
  }

  /** The attempts make a run, about which the theorems speak. */
  lemma EndIsAsPromised(start: State, picks: seq<nat>)
    requires Starting(start) && Stuck(Replay(Attempt, start, picks))
    ensures
      var last := Replay(Attempt, start, picks);
      && (start.clients != [] ==> exists i: nat :: EndedBy(start, last, i))
      && (SpeakersAreAlone(start) ==> AllPrinted(start, last))
  {
    forall s: State, j: nat
      ensures Attempt(s, j) == s || Next(s, Attempt(s, j))
    {
    }
    hide Next, Attempt, Starting, Stuck, EndedBy, AllPrinted, SpeakersAreAlone;
    var run := ReplayIsRun(Next, Attempt, start, picks);
    if start.clients != [] {
      CompleteRunPrints(run);
    }
    AllPrintedExactly(start);
  }
}
