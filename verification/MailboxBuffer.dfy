/** What the mailbox's buffer holds behind the current word: bytes of older, longer words, and what was there at the
    start where no word has reached yet. */
module MailboxBuffer {
  import opened Runs
  import opened Mailbox

  /** The byte at `k` that the last word long enough to reach it left there, its own or its terminating zero. */
  function Remembered(log: seq<Entry>, data: seq<char>, k: nat): char
    requires k < |data|
  {
    if log == [] then data[k]
    else
      var text := log[|log| - 1].text;
      if k < |text| then text[k] else if k == |text| then '\0' else Remembered(log[..|log| - 1], data, k)
  }

  /** The server writes the last byte only. */
  predicate Remembers(start: State, s: State) {
    && |start.data| == |s.data| == 1024
    && (forall k: nat :: k < 1023 ==> s.data[k] == Remembered(s.log, start.data, k))
    && s.data[1023] == if s.printed == [] then Remembered(s.log, start.data, 1023) else '\0'
  }

  lemma ScanRemembers(start: State, s: State, i: nat)
    requires Inv(s) && Remembers(start, s) && Enabled(s, ClientStep(i))
    requires s.clients[i].pc == Scan && s.clients[i].input != []
    ensures Remembers(start, ClientApply(s, i))
  {
    var t := ClientApply(s, i);
    var text := s.clients[i].input[0];
    assert Fits(text);
    hide Inv;
    assert t.log[..|t.log| - 1] == s.log;
  }

  lemma ClientRemembers(start: State, s: State, i: nat)
    requires Inv(s) && Remembers(start, s) && Enabled(s, ClientStep(i))
    ensures Remembers(start, ClientApply(s, i))
  {
    if s.clients[i].pc == Scan && s.clients[i].input != [] {
      ScanRemembers(start, s, i);
    }
    hide Inv, Store;
  }

  lemma StepRemembers(start: State, s: State, t: State)
    requires Inv(s) && Remembers(start, s) && Next(s, t)
    ensures Remembers(start, t)
  {
    hide Inv, Remembers, ClientApply;
    var e :| Enabled(s, e) && t == Apply(s, e);
    match e
    case ClientStep(i) => ClientRemembers(start, s, i);
    case ServerStep => ServerRemembers(start, s);
  }

  lemma ServerRemembers(start: State, s: State)
    requires Remembers(start, s) && Enabled(s, ServerStep)
    ensures Remembers(start, ServerApply(s))
  {
    hide CString;
  }

  /** In every state of every run each byte of the buffer is the one that the last word long enough left there; the last
      byte is zero once the server has printed. */
  lemma BufferRemembers(run: seq<State>, k: nat)
    requires IsRun(Next, run) && Starting(run[0]) && k < |run|
    ensures Remembers(run[0], run[k])
  {
    hide Inv, Next;
    var start := run[0];
    var inv := (s: State) => Inv(s) && Remembers(start, s);
    forall s, t | inv(s) && Next(s, t)
      ensures inv(t)
    {
      StepKeepsInv(s, t);
      StepRemembers(start, s, t);
    }
    StartInv(start);
    InvariantHolds(Next, inv, run);
    assert inv(run[k]);
  }
}
