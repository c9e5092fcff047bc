/** First come, first served: the order in which requests are written decides the numbers, also among clients that may
    die. And who blocks when. */
module SeqOrder {
  import opened Runs
  import opened SeqRanges
  import opened SeqServer

  lemma SoundMeansFirstCome(s: State)
    requires Sound(s)
    ensures FirstCome(s) && GrantsDistinct(s) && Tiled(s.granted) && |s.granted| <= |s.written|
    ensures |s.written| == |s.granted| + |s.requests|
    ensures forall k :: 0 <= k < |s.granted| ==> s.written[k] == s.granted[k].pid
    ensures forall k :: |s.granted| <= k < |s.written| ==> s.written[k] == s.requests[k - |s.granted|].pid
  {
    hide ServerOk, ClientsOk, QueueOk, RendezvousOk, GrantEntriesOk, AnswersOk, Total;
    assert |GrantPids(s.granted)| == |s.granted|;
    assert forall k :: 0 <= k < |s.granted| ==> s.written[k] == GrantPids(s.granted)[k];
    assert forall k :: |s.granted| <= k < |s.written| ==>
      s.written[k] == RequestPids(s.requests)[k - |s.granted|];
  }

  /** The client that wrote the `p`-th request and has read its number was given the `p`-th grant. */
  lemma GrantAt(s: State, p: nat)
    requires Sound(s) && p < |s.written| && s.written[p] < |s.clients| && s.clients[s.written[p]].got != []
    ensures
      var i := s.written[p];
      p < |s.granted| && s.granted[p] == Grant(i, s.clients[i].got[0], s.clients[i].seqLen)
  {
    var i := s.written[p];
    var k := GrantOf(s, i);
    SoundMeansFirstCome(s);
    hide Sound;
    assert forall l :: 0 <= l < |s.requests| ==> s.requests[l].pid != s.granted[k].pid;
    assert p < |s.granted| && s.granted[p].pid == i;
  }

  /** Of two clients that have read their numbers the one that wrote its request first has the lower range, and where
      all ask for one number each, the number says whose turn it was. */
  predicate NumberedInTurn(s: State) {
    && (forall p, q :: 0 <= p < q < |s.written| ==>
          var i, j := s.written[p], s.written[q];
          i < |s.clients| && j < |s.clients| && s.clients[i].got != [] && s.clients[j].got != [] ==>
            s.clients[i].got[0] + s.clients[i].seqLen <= s.clients[j].got[0])
    && ((forall i :: 0 <= i < |s.clients| ==> s.clients[i].seqLen == 1) ==>
          forall p: nat :: p < |s.written| ==>
            s.written[p] < |s.clients| && s.clients[s.written[p]].got != [] ==> s.clients[s.written[p]].got[0] == p)
  }

  lemma SoundMeansInTurn(s: State)
    requires Sound(s)
    ensures NumberedInTurn(s)
  {
    hide Sound;
    forall p, q | 0 <= p < q < |s.written| && s.written[p] < |s.clients| && s.written[q] < |s.clients|
      && s.clients[s.written[p]].got != [] && s.clients[s.written[q]].got != []
      ensures s.clients[s.written[p]].got[0] + s.clients[s.written[p]].seqLen <= s.clients[s.written[q]].got[0]
    {
      PairInTurn(s, p, q);
    }
    if forall i :: 0 <= i < |s.clients| ==> s.clients[i].seqLen == 1 {
      forall p: nat | p < |s.written| && s.written[p] < |s.clients| && s.clients[s.written[p]].got != []
        ensures s.clients[s.written[p]].got[0] == p
      {
        UnitInTurn(s, p);
      }
    }
  }

  lemma PairInTurn(s: State, p: nat, q: nat)
    requires Sound(s) && p < q < |s.written| && s.written[p] < |s.clients| && s.written[q] < |s.clients|
    requires s.clients[s.written[p]].got != [] && s.clients[s.written[q]].got != []
    ensures s.clients[s.written[p]].got[0] + s.clients[s.written[p]].seqLen <= s.clients[s.written[q]].got[0]
  {
    GrantAt(s, p);
    GrantAt(s, q);
    SoundMeansFirstCome(s);
    hide Sound;
    RangesDisjoint(s.granted, p, q);
  }

  lemma UnitInTurn(s: State, p: nat)
    requires Sound(s) && p < |s.written| && s.written[p] < |s.clients| && s.clients[s.written[p]].got != []
    requires forall i :: 0 <= i < |s.clients| ==> s.clients[i].seqLen == 1
    ensures s.clients[s.written[p]].got[0] == p
  {
    GrantAt(s, p);
    GrantsHaveLengths(s);
    SoundMeansFirstCome(s);
    hide Sound;
    UnitStart(s.granted, p);
  }

  lemma GrantsHaveLengths(s: State)
    requires Sound(s)
    ensures forall k :: 0 <= k < |s.granted| ==>
      s.granted[k].pid < |s.clients| && s.granted[k].len == s.clients[s.granted[k].pid].seqLen
  {
    hide ServerOk, ClientsOk, QueueOk, RendezvousOk, NumbersOk, AnswersOk, Awaiting, Asked;
  }

  predicate HistoriesGrow(s: State, t: State) {
    s.written <= t.written && s.granted <= t.granted
  }

  lemma StepGrowsHistories(s: State, t: State)
    requires Faulty(s, t)
    ensures HistoriesGrow(s, t)
  {
    if Next(s, t) {
      hide ServerApply, ClientApply, HistoriesGrow, ServerEnabled, ClientEnabled;
      var e :| Enabled(s, e) && t == Apply(s, e);
      match e
      case ClientStep(i) => ClientGrowsHistories(s, i);
      case ServerStep => ServerGrowsHistories(s);
    } else {
      hide Next;
    }
  }

  lemma ClientGrowsHistories(s: State, i: nat)
    requires ClientEnabled(s, i)
    ensures HistoriesGrow(s, ClientApply(s, i))
  {
    hide ClientMove;
  }

  lemma ServerGrowsHistories(s: State)
    requires ServerEnabled(s)
    ensures HistoriesGrow(s, ServerApply(s))
  {
    hide WriteEndOpen;
    match s.server
    case ReadRequest =>
    case _ => assert ServerApply(s).written == s.written && ServerApply(s).granted == s.granted;
  }

  lemma {:induction false} RunGrowsHistories(run: seq<State>, k: nat, l: nat)
    requires IsRun(Faulty, run) && k <= l < |run|
    ensures HistoriesGrow(run[k], run[l])
  {
    hide Faulty;
    if k == l {
    } else {
      RunGrowsHistories(run, k, l - 1);
      assert Faulty(run[l - 1], run[l - 1 + 1]);
      StepGrowsHistories(run[l - 1], run[l]);
    }
  }

  /** In every run, deaths included, the requests taken and then those in the FIFO are all that were written, in order;
      what is written or taken later comes after; and numbers are handed out in turn. */
  lemma AnsweredInTurn(run: seq<State>, k: nat, l: nat)
    requires IsRun(Faulty, run) && Starting(run[0]) && k <= l < |run|
    ensures GrantPids(run[l].granted) + RequestPids(run[l].requests) == run[l].written
    ensures HistoriesGrow(run[k], run[l]) && NumberedInTurn(run[l])
  {
    hide Faulty, Starting, NumberedInTurn;
    FaultyRunIsSound(run);
    SoundMeansFirstCome(run[l]);
    SoundMeansInTurn(run[l]);
    RunGrowsHistories(run, k, l);
    hide Sound;
  }

  // ---------------------------------------------------------------------------------------------
  // Who blocks when

  /** The server waits in three places: until a client opens its FIFO, until a request is there, which is then the
      next in turn, and until the client it is serving opens its own FIFO. */
  lemma ServerBlocksExactly(s: State)
    requires Sound(s)
    ensures s.server !in {OpenReadBlocked, ReadRequest, OpenReplyBlocked} ==> ServerEnabled(s)
    ensures s.server == OpenReadBlocked ==>
      forall i :: 0 <= i < |s.clients| && s.clients[i].pc !in {MakeFifo, OpenServer, Gone} ==> ServerEnabled(s)
    ensures s.server == ReadRequest ==>
      && (ServerEnabled(s) <==> |s.granted| < |s.written|)
      && (|s.granted| < |s.written| ==> ServerApply(s).req.pid == s.written[|s.granted|])
    ensures s.server == OpenReplyBlocked ==>
      && s.req.pid < |s.clients|
      && (!s.clients[s.req.pid].killed ==> (ServerEnabled(s) <==> HoldsReadEnd(s.clients[s.req.pid])))
  {
    if s.server == ReadRequest {
      ReadBlocksExactly(s);
    } else if s.server == OpenReplyBlocked {
      OpenBlocksExactly(s);
    }
    hide QueueOk, NumbersOk, GrantsOk, AnswersOk, FirstCome, ClientsOk;
  }

  lemma ReadBlocksExactly(s: State)
    requires Sound(s) && s.server == ReadRequest
    ensures ServerEnabled(s) <==> |s.granted| < |s.written|
    ensures |s.granted| < |s.written| ==> ServerApply(s).req.pid == s.written[|s.granted|]
  {
    assert s.dummy;
    SoundMeansFirstCome(s);
    hide ServerOk, ClientsOk, QueueOk, RendezvousOk, NumbersOk, GrantsOk, AnswersOk;
    assert RequestPids(s.requests) == s.written[|s.granted|..];
  }

  lemma OpenBlocksExactly(s: State)
    requires Sound(s) && s.server == OpenReplyBlocked
    ensures s.req.pid < |s.clients|
    ensures !s.clients[s.req.pid].killed ==> (ServerEnabled(s) <==> HoldsReadEnd(s.clients[s.req.pid]))
  {
    hide NumbersOk, GrantsOk, AnswersOk, AwaitedOk, FirstCome;
    assert Outstanding(s)[0] == s.req;
    assert ClientOk(s.clients[s.req.pid]);
  }

  /** The request of client `i` has been taken. */
  predicate Taken(s: State, i: nat) {
    exists k :: 0 <= k < |s.granted| && s.granted[k].pid == i
  }

  /** A client waits until the server has opened its FIFO, while the FIFO is full of requests, until its own request has
      been taken and the server opens the client's FIFO, and until it is answered; and nowhere else. */
  lemma ClientBlocksExactly(s: State, i: nat)
    requires Inv(s) && i < |s.clients| && s.clients[i].pc != Gone
    ensures ClientEnabled(s, i) <==>
      match s.clients[i].pc
      case OpenServerBlocked => s.server != OpenRead
      case WriteRequest => |s.written| - |s.granted| < s.capacity
      case OpenOwnBlocked => Taken(s, i) && !(s.server == OpenReply && s.req.pid == i)
      case ReadReply => Taken(s, i) && !(Serving(s) && s.req.pid == i)
      case _ => true
  {
    assert ClientOk(s.clients[i]) && !s.clients[i].killed;
    match s.clients[i].pc
    case WriteRequest =>
      hide ServerOk, ClientsOk, QueueOk, RendezvousOk, NumbersOk, GrantsOk, AnswersOk;
      assert |s.written| == |GrantPids(s.granted)| + |RequestPids(s.requests)|;
    case OpenOwnBlocked => AwaitsItsTurn(s, i);
    case ReadReply =>
      AwaitsItsTurn(s, i);
      AnsweredExactly(s, i);
    case _ => hide QueueOk, RendezvousOk, NumbersOk, GrantsOk, AnswersOk, FirstCome;
  }

  lemma AwaitsItsTurn(s: State, i: nat)
    requires Inv(s) && i < |s.clients| && s.clients[i].pc in {OpenOwnBlocked, ReadReply}
    ensures s.clients[i].writer <==> Taken(s, i) && !(s.server == OpenReply && s.req.pid == i)
  {
    var c := s.clients[i];
    assert ClientOk(c) && !c.killed;
    if c.box != [] {
      assert c.box[0] in c.box + c.got && IsGranted(s.granted, i, c.box[0]);
      NotServedAgain(s, i);
    } else {
      hide AnswersOk, CountOk, AwaitedOk, FirstCome, Total, Tiled;
      if Taken(s, i) {
        var k :| 0 <= k < |s.granted| && s.granted[k].pid == i;
        assert Serving(s) && k == |s.granted| - 1;
      }
      if c.writer {
        assert s.granted[|s.granted| - 1].pid == i;
      }
    }
  }

  /** A client that has an answer is not served any more. */
  lemma NotServedAgain(s: State, i: nat)
    requires Inv(s) && i < |s.clients| && s.clients[i].box != []
    ensures !(Serving(s) && s.req.pid == i)
  {
    if Serving(s) {
      ServedAwaits(s);
    }
    hide Sound, CountOk;
  }

  lemma AnsweredExactly(s: State, i: nat)
    requires Inv(s) && i < |s.clients| && s.clients[i].pc == ReadReply
    ensures ClientEnabled(s, i) <==> s.clients[i].box != []
    ensures s.clients[i].box != [] <==> Taken(s, i) && !(Serving(s) && s.req.pid == i)
  {
    AwaitsItsTurn(s, i);
    var c := s.clients[i];
    assert ClientOk(c);
    if c.box != [] {
      assert c.box[0] in c.box + c.got && IsGranted(s.granted, i, c.box[0]);
      NotServedAgain(s, i);
    } else {
      hide AnswersOk, CountOk, AwaitedOk, FirstCome, Total, Tiled, GrantsOk, NumbersOk;
      if ClientEnabled(s, i) {
        NoEmptyReply(s, i);
      }
    }
  }
}
