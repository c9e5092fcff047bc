/** POSIX message-queue notification by signal. A registration is good for one message that arrives on an empty
    queue: the message removes the registration and makes the (blocked) signal pending. The receiver sleeps in
    sigsuspend, registers again and only then drains the queue without blocking. */
module MqNotify {
  import opened Streams
  import opened Runs

  const MAX_MSG: nat := 5

  type Message = seq<byte>

  /** The receiver's next call. `Refused` is a receiver that exited because mq_notify found a registration. */
  datatype ReceiverPc = Register | Suspend | Reregister | Drain | Refused

  /** `accepted` records every message the queue ever held, in order, and `received` those the receiver took. */
  datatype State = State(
    pc: ReceiverPc, queue: seq<Message>, registered: bool, pending: bool,
    accepted: seq<Message>, received: seq<Message>)

  datatype Event = Send(m: Message) | ReceiverStep

  /** A send to a full queue is refused and changes nothing; sigsuspend blocks until the signal is pending. */
  predicate Enabled(s: State, e: Event) {
    match e
    case Send(_) => |s.queue| < MAX_MSG
    case ReceiverStep => s.pc != Refused && (s.pc == Suspend ==> s.pending)
  }

  /** The message arrives; on an empty queue it uses up the registration, if there is one. */
  function Arrive(s: State, m: Message): State {
    var t := s.(queue := s.queue + [m], accepted := s.accepted + [m]);
    if s.queue == [] && s.registered then t.(registered := false, pending := true) else t
  }

  function Apply(s: State, e: Event): State
    requires Enabled(s, e)
  {
    match e
    case Send(m) => Arrive(s, m)
    case ReceiverStep =>
      match s.pc
      case Register => if s.registered then s.(pc := Refused) else s.(registered := true, pc := Suspend)
      case Suspend => s.(pending := false, pc := Reregister)
      case Reregister => if s.registered then s.(pc := Refused) else s.(registered := true, pc := Drain)
      case Drain =>
        if s.queue == [] then s.(pc := Suspend)
        else s.(received := s.received + [s.queue[0]], queue := s.queue[1..])
  }

  ghost predicate Next(s: State, t: State) {
    exists e :: Enabled(s, e) && t == Apply(s, e)
  }

  /** The receiver is about to register for the first time; the queue may already hold messages. */
  predicate Starting(s: State) {
    s.pc == Register && !s.registered && !s.pending && |s.queue| <= MAX_MSG && s.accepted == s.queue && s.received == []
  }

  // ---------------------------------------------------------------------------------------------
  // What holds whatever the queue held at the first registration

  /** After the first registration exactly one is true: registered, signal pending, or between waking up and
      registering again. */
  predicate ExactlyOne(s: State) {
    match s.pc
    case Register => !s.registered && !s.pending
    case Suspend => s.registered != s.pending
    case Reregister => !s.registered && !s.pending
    case Drain => s.registered != s.pending
    case Refused => false
  }

  predicate Fifo(s: State) {
    s.received + s.queue == s.accepted && |s.queue| <= MAX_MSG
  }

  predicate Inv(s: State) {
    ExactlyOne(s) && Fifo(s)
  }

  lemma StepKeepsInv(s: State, t: State)
    requires Inv(s) && Next(s, t)
    ensures Inv(t) && s.accepted <= t.accepted && s.received <= t.received
  {
    var e :| Enabled(s, e) && t == Apply(s, e);
  }

  /** Registering again is never refused, and messages are received once each, in the order they were accepted. */
  lemma NeverRefused(run: seq<State>)
    requires IsRun(Next, run) && Starting(run[0])
    ensures forall k :: 0 <= k < |run| ==> Inv(run[k]) && run[k].pc != Refused
  {
    forall s, t | Inv(s) && Next(s, t)
      ensures Inv(t)
    {
      StepKeepsInv(s, t);
    }
    InvariantHolds(Next, Inv, run);
  }

  /** A send is refused exactly when five messages are waiting, and nothing but sigsuspend blocks the receiver, exactly
      while it is registered. */
  lemma BlocksExactly(s: State, e: Event)
    requires Inv(s)
    ensures Enabled(s, e) <==>
      match e
      case Send(_) => |s.accepted| - |s.received| < 5
      case ReceiverStep => s.pc == Suspend ==> !s.registered
  {
    assert |s.accepted| == |s.received| + |s.queue|;
  }

  // ---------------------------------------------------------------------------------------------
  // No lost wake-up, and exactly when

  /** A receiver asleep beside a nonempty queue is about to be woken. */
  predicate NoLostWakeUp(s: State) {
    s.pc == Suspend && s.queue != [] ==> s.pending
  }

  predicate JustRegistered(s: State) {
    s.pc == Suspend && s.registered && !s.pending
  }

  predicate Alert(s: State) {
    Inv(s) && NoLostWakeUp(s) && s.pc != Register
  }

  lemma StepKeepsAlert(s: State, t: State)
    requires Alert(s) && Next(s, t)
    ensures Alert(t)
  {
    StepKeepsInv(s, t);
    var e :| Enabled(s, e) && t == Apply(s, e);
  }

  /** Where the run takes the first registration, it finds the queue empty. */
  predicate RegistersOnEmpty(run: seq<State>) {
    forall k :: 0 <= k < |run| - 1 && Registers(run[k], run[k + 1]) ==> run[k].queue == []
  }

  predicate Registers(s: State, t: State) {
    s.pc == Register && t.pc != Register
  }

  /** In any run no wake-up is ever lost exactly when the queue is empty at the step that registers first. The program
      does not drain the queue before that step. */
  lemma NoLostWakeUpExactly(run: seq<State>)
    requires IsRun(Next, run) && Starting(run[0])
    ensures (forall k :: 0 <= k < |run| ==> NoLostWakeUp(run[k])) <==> RegistersOnEmpty(run)
  {
    if RegistersOnEmpty(run) {
      WokenOnEmpty(run);
    } else {
      var k :| 0 <= k < |run| - 1 && Registers(run[k], run[k + 1]) && run[k].queue != [];
      NeverRefused(run);
      assert Next(run[k], run[k + 1]);
      assert !NoLostWakeUp(run[k + 1]);
    }
  }

  ghost predicate NextOnEmpty(s: State, t: State) {
    Next(s, t) && (Registers(s, t) ==> s.queue == [])
  }

  lemma WokenOnEmpty(run: seq<State>)
    requires IsRun(Next, run) && Starting(run[0]) && RegistersOnEmpty(run)
    ensures forall k :: 0 <= k < |run| ==> NoLostWakeUp(run[k])
  {
    var inv := (s: State) => Inv(s) && NoLostWakeUp(s);
    forall s, t | inv(s) && NextOnEmpty(s, t)
      ensures inv(t)
    {
      StepKeepsInv(s, t);
      var e :| Enabled(s, e) && t == Apply(s, e);
    }
    forall k | 0 <= k < |run| - 1
      ensures NextOnEmpty(run[k], run[k + 1])
    {
      assert Next(run[k], run[k + 1]);
    }
    InvariantHolds(NextOnEmpty, inv, run);
    assert forall k :: 0 <= k < |run| ==> inv(run[k]);
  }

  predicate Deaf(s: State) {
    JustRegistered(s) && s.queue != [] && s.received == []
  }

  /** If the queue was not empty at the first registration, the receiver sleeps for ever: whatever is sent, no signal is
      ever made pending and nothing is received. */
  lemma DeafForever(run: seq<State>)
    requires IsRun(Next, run) && Deaf(run[0])
    ensures forall k :: 0 <= k < |run| ==> Deaf(run[k])
  {
    forall s, t | Deaf(s) && Next(s, t)
      ensures Deaf(t)
    {
      var e :| Enabled(s, e) && t == Apply(s, e);
    }
    InvariantHolds(Next, Deaf, run);
  }

  /** Nothing keeps a sender from being first: from every start, with an empty queue or not, some run loses a wake-up,
      and by `DeafForever` for good. */
  lemma DeafFromAnyStart(start: State) returns (run: seq<State>)
    requires Starting(start)
    ensures IsRun(Next, run) && run[0] == start && Deaf(run[|run| - 1]) && !NoLostWakeUp(run[|run| - 1])
  {
    run := [start];
    if start.queue == [] {
      assert Enabled(start, Send([]));
      run := run + [Apply(start, Send([]))];
    }
    var s := run[|run| - 1];
    assert Enabled(s, ReceiverStep);
    run := run + [Apply(s, ReceiverStep)];
  }

  // ---------------------------------------------------------------------------------------------
  // The receiver under a schedule of arrivals

  /** A call that is refused, or blocks, changes nothing. */
  function Attempt(s: State, e: Event): State {
    if Enabled(s, e) then Apply(s, e) else s
  }

  /** The messages of `batch` are offered one after the other. */
  function Offered(s: State, batch: seq<Message>): State {
    if batch == [] then s
    else Attempt(Offered(s, batch[..|batch| - 1]), Send(batch[|batch| - 1]))
  }

  /** The batch that arrives before the receiver's call number `k`. */
  function Batch(schedule: seq<seq<Message>>, k: nat): seq<Message> {
    if k < |schedule| then schedule[k] else []
  }

  /** The receiver has made `n` calls, each of them after its batch; sigsuspend is called again while it would block. */
  function AfterCalls(s: State, schedule: seq<seq<Message>>, n: nat): State {
    if n == 0 then s
    else Attempt(Offered(AfterCalls(s, schedule, n - 1), Batch(schedule, n - 1)), ReceiverStep)
  }

  function Min(a: nat, b: nat): nat {
    if a < b then a else b
  }

  /** What the queue accepts of a batch: as many messages, in order, as it has room for. */
  function Taken(s: State, batch: seq<Message>): seq<Message>
    requires Inv(s)
  {
    batch[..Min(|batch|, MAX_MSG - |s.queue|)]
  }

  /** The messages beyond the queue's room are refused, and the receiver is where it was. */
  lemma {:induction false} OfferedAccepts(s: State, batch: seq<Message>)
    requires Inv(s)
    ensures
      var t := Offered(s, batch);
      && Inv(t) && t.pc == s.pc && t.received == s.received
      && t.queue == s.queue + Taken(s, batch) && t.accepted == s.accepted + Taken(s, batch)
      && (Alert(s) ==> Alert(t)) && (Deaf(s) ==> Deaf(t))
  {
    if batch == [] {
    } else {
      var before := batch[..|batch| - 1];
      OfferedAccepts(s, before);
      TakenGrows(s, batch);
      hide Taken;
      AttemptKeeps(Offered(s, before), batch[|batch| - 1]);
    }
  }

  lemma TakenGrows(s: State, batch: seq<Message>)
    requires Inv(s) && batch != []
    ensures
      var m := batch[|batch| - 1];
      var before := Taken(s, batch[..|batch| - 1]);
      Taken(s, batch) == if |s.queue| + |before| < MAX_MSG then before + [m] else before
  {
  }

  lemma AttemptKeeps(s: State, m: Message)
    requires Inv(s)
    ensures
      var t := Attempt(s, Send(m));
      && Inv(t) && t.pc == s.pc && t.received == s.received && (Alert(s) ==> Alert(t)) && (Deaf(s) ==> Deaf(t))
  {
    if Enabled(s, Send(m)) {
      assert Next(s, Attempt(s, Send(m)));
      StepKeepsInv(s, Attempt(s, Send(m)));
    }
  }

  /** Nothing is on the queue before the first call. */
  predicate QuietStart(s: State, schedule: seq<seq<Message>>) {
    s.queue == [] && Batch(schedule, 0) == []
  }

  // ---------------------------------------------------------------------------------------------
  // Draining once the senders stop

  /** The receiver runs and nobody sends. */
  ghost predicate Quiet(s: State, t: State) {
    Enabled(s, ReceiverStep) && t == Apply(s, ReceiverStep)
  }

  function Measure(s: State): nat {
    match s.pc
    case Suspend => if s.pending then |s.queue| + 3 else 0
    case Reregister => |s.queue| + 2
    case Drain => |s.queue| + 1 + if s.pending then 3 else 0
    case _ => 0
  }

  lemma QuietStepLowers(s: State, t: State)
    requires Alert(s) && Quiet(s, t)
    ensures Alert(t) && Measure(t) < Measure(s) && t.accepted == s.accepted
  {
    assert Next(s, t);
    StepKeepsAlert(s, t);
  }

  /** When sends stop the receiver makes at most |queue| + 4 more steps, and it comes to rest with the queue empty,
      everything accepted received, and registered for the next message. */
  lemma QuietRunDrains(run: seq<State>)
    requires IsRun(Quiet, run) && Alert(run[0])
    ensures |run| - 1 <= |run[0].queue| + 4
    ensures
      var last := run[|run| - 1];
      !Enabled(last, ReceiverStep) ==>
        last.queue == [] && last.received == last.accepted == run[0].accepted && JustRegistered(last)
  {
    var accepted := run[0].accepted;
    var inv := (s: State) => Alert(s) && s.accepted == accepted;
    forall s, t | inv(s) && Quiet(s, t)
      ensures inv(t) && Measure(t) < Measure(s)
    {
      QuietStepLowers(s, t);
    }
    RunIsBounded(Quiet, inv, Measure, run);
    InvariantHolds(Quiet, inv, run);
    assert inv(run[|run| - 1]);
  }
}
