/** The receiver of `posix_mq_demo.c`: the queue and the signal as variables, one method for each call, and
    the program's two nested loops, with arbitrary sends arriving between any two of its calls. */
module MqPrograms {
  import opened MqNotify

  class NotifiedQueue {
    ghost var pc: ReceiverPc
    var queue: seq<Message>
    var registered: bool
    var pending: bool
    ghost var accepted: seq<Message>
    var received: seq<Message>

    ghost function View(): State
      reads this
    {
      State(pc, queue, registered, pending, accepted, received)
    }

    /** A receiver that has not registered yet, on a queue that may hold messages. */
    constructor (queue: seq<Message>)
      requires |queue| <= MAX_MSG
      ensures Starting(View()) && this.queue == queue
    {
      this.pc, this.queue, this.registered, this.pending := Register, queue, false, false;
      this.accepted, this.received := queue, [];
    }

    /** A sender's mq_timedsend: refused at once when the queue is full. */
    method Send(m: Message) returns (ok: bool)
      requires Inv(View())
      modifies this
      ensures Inv(View())
      ensures ok <==> old(Enabled(View(), MqNotify.Send(m)))
      ensures View() == if ok then old(Apply(View(), MqNotify.Send(m))) else old(View())
    {
      ok := |queue| < MAX_MSG;
      if ok {
        if queue == [] && registered {
          registered, pending := false, true;
        }
        queue, accepted := queue + [m], accepted + [m];
      }
    }

    /** mq_notify. */
    method Notify() returns (ok: bool)
      requires Inv(View()) && pc in {Register, Reregister}
      modifies this
      ensures Inv(View()) && ok && View() == old(Apply(View(), ReceiverStep))
    {
      ok := !registered;
      registered := true;
      pc := if pc == Register then Suspend else Drain;
    }

    /** sigsuspend: returns once the signal has been delivered; false if it would still block. */
    method SigSuspend() returns (woken: bool)
      requires Inv(View()) && pc == Suspend
      modifies this
      ensures Inv(View())
      ensures woken <==> old(Enabled(View(), ReceiverStep))
      ensures View() == if woken then old(Apply(View(), ReceiverStep)) else old(View())
    {
      woken := pending;
      if woken {
        pending := false;
        pc := Reregister;
      }
    }

    /** mq_receive on the nonblocking descriptor: fails on an empty queue. */
    method Receive() returns (ok: bool)
      requires Inv(View()) && pc == Drain
      modifies this
      ensures Inv(View()) && View() == old(Apply(View(), ReceiverStep))
      ensures ok <==> old(queue) != []
    {
      ok := queue != [];
      if ok {
        received, queue := received + [queue[0]], queue[1..];
      } else {
        pc := Suspend;
      }
    }

    /** Senders offer a batch of messages; the queue takes what it has room for. */
    method Arrive(batch: seq<Message>)
      requires Inv(View())
      modifies this
      ensures Inv(View()) && View() == old(Offered(View(), batch))
    {
      for i := 0 to |batch|
        invariant Inv(View()) && View() == old(Offered(View(), batch[..i]))
      {
        assert batch[..i + 1][..i] == batch[..i];
        var ok := Send(batch[i]);
      }
      assert batch[..|batch|] == batch;
    }

    /** The batch of the receiver's next call, if the schedule has one left. */
    method Interrupt(schedule: seq<seq<Message>>, calls: nat)
      requires Inv(View())
      modifies this
      ensures Inv(View()) && View() == old(Offered(View(), Batch(schedule, calls)))
      ensures pc == old(pc) && (old(Alert(View())) ==> Alert(View())) && (old(Deaf(View())) ==> Deaf(View()))
      ensures |schedule| <= calls ==> View() == old(View())
    {
      OfferedAccepts(View(), Batch(schedule, calls));
      if calls < |schedule| {
        Arrive(schedule[calls]);
      }
    }

    /** The receiver's program, with `schedule[k]` arriving just before its call number `k`, the first registration
        being call 0; it stops when it sleeps and nothing is left to arrive. The state is the one that these calls
        lead to, batch by batch. If nothing was on the queue before the first call, every message ever accepted has
        been received and the receiver is registered for the next one; otherwise it is deaf. */
    method SigNotify(schedule: seq<seq<Message>>) returns (calls: nat)
      requires Starting(View())
      modifies this
      ensures calls > |schedule| && View() == AfterCalls(old(View()), schedule, calls)
      ensures if old(QuietStart(View(), schedule)) then queue == [] && received == accepted && JustRegistered(View())
              else Deaf(View())
    {
      ghost var start := View();
      RegisterFirst(schedule);
      calls := 1;
      hide AfterCalls, Inv, QuietStart, Deaf;
      var asleep := false;
      while !asleep
        invariant calls > 0 && Between(start, schedule, calls)
        invariant asleep ==> calls > |schedule| && !pending
        decreases if calls < |schedule| then |schedule| - calls else 0, pending, !asleep
      {
        calls, asleep := SleepOnce(schedule, calls, start);
      }
      AtRest(View());
    }

    /** The receiver is about to sleep, after `calls` calls. */
    ghost predicate Between(start: State, schedule: seq<seq<Message>>, calls: nat)
      reads this
    {
      && Inv(View()) && pc == Suspend && View() == AfterCalls(start, schedule, calls)
      && if QuietStart(start, schedule) then Alert(View()) else Deaf(View())
    }

    lemma AtRest(s: State)
      requires s.pc == Suspend && !s.pending
      ensures Alert(s) ==> s.queue == [] && s.received == s.accepted && JustRegistered(s)
    {
    }

    /** The first registration, after whatever arrives before it. */
    method RegisterFirst(schedule: seq<seq<Message>>)
      requires Starting(View())
      modifies this
      ensures Between(old(View()), schedule, 1)
    {
      ghost var start := View();
      OfferedAccepts(start, Batch(schedule, 0));
      Interrupt(schedule, 0);
      var ok := Notify();
      assert AfterCalls(start, schedule, 0) == start;
    }

    /** The receiver's loop body: it goes to sleep, and handles the signal if one comes. */
    method SleepOnce(schedule: seq<seq<Message>>, first: nat, ghost start: State) returns (calls: nat, asleep: bool)
      requires first > 0 && Between(start, schedule, first)
      modifies this
      ensures calls > first && Between(start, schedule, calls)
      ensures |schedule| <= first ==> !pending && (old(pending) || asleep)
      ensures asleep ==> calls > |schedule| && !pending
    {
      hide QuietStart, Batch;
      Interrupt(schedule, first);
      var woken := SigSuspend();
      calls := first + 1;
      asleep := !woken && calls > |schedule|;
      if woken {
        calls := DrainAgain(schedule, calls, start);
      }
    }

    /** Woken up, the receiver registers again and then drains the queue. */
    method DrainAgain(schedule: seq<seq<Message>>, first: nat, ghost start: State) returns (calls: nat)
      requires Alert(View()) && pc == Reregister && View() == AfterCalls(start, schedule, first)
      modifies this
      ensures Alert(View()) && pc == Suspend && View() == AfterCalls(start, schedule, calls)
      ensures calls > first && (|schedule| <= first ==> !pending)
    {
      hide Alert, AfterCalls;
      RegisterAgain(schedule, first, start);
      calls := first + 1;
      var more := true;
      while more
        invariant Alert(View()) && pc == (if more then Drain else Suspend)
        invariant View() == AfterCalls(start, schedule, calls) && calls > first
        invariant |schedule| <= first ==> !pending
        decreases if calls < |schedule| then |schedule| - calls else 0, |queue|, more
      {
        more := ReceiveOnce(schedule, calls, start);
        calls := calls + 1;
      }
    }

    /** The mq_notify after a wake-up, after what arrives before it. */
    method RegisterAgain(schedule: seq<seq<Message>>, calls: nat, ghost start: State)
      requires Alert(View()) && pc == Reregister && View() == AfterCalls(start, schedule, calls)
      modifies this
      ensures Alert(View()) && pc == Drain && View() == AfterCalls(start, schedule, calls + 1)
      ensures |schedule| <= calls ==> !pending
    {
      hide Offered, Batch;
      Interrupt(schedule, calls);
      var ok := Notify();
    }

    /** One mq_receive of the drain, after what arrives before it. */
    method ReceiveOnce(schedule: seq<seq<Message>>, calls: nat, ghost start: State) returns (more: bool)
      requires Alert(View()) && pc == Drain && View() == AfterCalls(start, schedule, calls)
      modifies this
      ensures Alert(View()) && pc == (if more then Drain else Suspend)
      ensures View() == AfterCalls(start, schedule, calls + 1)
      ensures |schedule| <= calls ==> pending == old(pending) && |queue| == |old(queue)| - (if more then 1 else 0)
    {
      hide Offered, Batch;
      Interrupt(schedule, calls);
      more := Receive();
    }
  }
}
