/** A barrier made of a pipe, for any number of children: every child inherits a write end and closes it when it is
    done; the parent closes its own and reads, and the read returns 0 once no write end is open any more. */
module PipeBarrier {
  import opened Runs
  import opened Sums

  datatype ParentPc = Fork | CloseWrite | ReadPipe | Ready | Failed
  datatype ChildPc = CloseRead | Work | CloseOwnWrite | Exited

  /** `total` children are to be forked; `readers` and `writers` are the kernel's counts of open pipe ends. */
  datatype State = State(total: nat, parent: ParentPc, children: seq<ChildPc>, readers: nat, writers: nat)

  datatype Event = ParentStep | ForkFails | ChildStep(i: nat)

  predicate Enabled(s: State, e: Event) {
    match e
    case ParentStep => (
      match s.parent
      case Fork => true
      case CloseWrite => s.writers > 0
      case ReadPipe => s.writers == 0
      case _ => false)
    case ForkFails => s.parent == Fork && |s.children| < s.total && s.readers > 0 && s.writers > 0
    case ChildStep(i) =>
      && i < |s.children|
      && (match s.children[i]
          case CloseRead => s.readers > 0
          case Work => true
          case CloseOwnWrite => s.writers > 0
          case Exited => false)
  }

  /** A fork duplicates both ends for the child. A parent that cannot fork exits, which closes its own. Nothing is ever
      written, so the parent's read returns 0 when there is no write end and blocks before. */
  function Apply(s: State, e: Event): State
    requires Enabled(s, e)
  {
    match e
    case ParentStep => (
      match s.parent
      case Fork =>
        if |s.children| < s.total then
          s.(children := s.children + [CloseRead], readers := s.readers + 1, writers := s.writers + 1)
        else s.(parent := CloseWrite)
      case CloseWrite => s.(writers := s.writers - 1, parent := ReadPipe)
      case ReadPipe => s.(parent := Ready))
    case ForkFails => s.(parent := Failed, readers := s.readers - 1, writers := s.writers - 1)
    case ChildStep(i) =>
      match s.children[i]
      case CloseRead => s.(readers := s.readers - 1, children := s.children[i := Work])
      case Work => s.(children := s.children[i := CloseOwnWrite])
      case CloseOwnWrite => s.(writers := s.writers - 1, children := s.children[i := Exited])
  }

  ghost predicate Next(s: State, t: State) {
    exists e :: Enabled(s, e) && t == Apply(s, e)
  }

  /** The pipe has just been made. */
  predicate Starting(s: State) {
    s.parent == Fork && s.children == [] && s.readers == 1 && s.writers == 1
  }

  function HasWriteEnd(c: ChildPc): nat {
    if c == Exited then 0 else 1
  }

  function HasReadEnd(c: ChildPc): nat {
    if c == CloseRead then 1 else 0
  }

  /** The kernel's counts are the ends that the processes hold: forks and closes conserve them. */
  predicate EndsConserved(s: State) {
    && s.writers == Sum(HasWriteEnd, s.children) + (if s.parent in {Fork, CloseWrite} then 1 else 0)
    && s.readers == Sum(HasReadEnd, s.children) + (if s.parent == Failed then 0 else 1)
  }

  predicate Inv(s: State) {
    && EndsConserved(s) && |s.children| <= s.total
    && (s.parent in {CloseWrite, ReadPipe, Ready} ==> |s.children| == s.total)
    && (s.parent == Ready ==> s.writers == 0)
  }

  lemma ParentKeepsInv(s: State)
    requires Inv(s) && Enabled(s, ParentStep)
    ensures Inv(Apply(s, ParentStep))
  {
    SumAppend(HasWriteEnd, s.children, CloseRead);
    SumAppend(HasReadEnd, s.children, CloseRead);
    hide Sum;
  }

  lemma ChildKeepsInv(s: State, i: nat)
    requires Inv(s) && Enabled(s, ChildStep(i))
    ensures Inv(Apply(s, ChildStep(i)))
  {
    var c := Apply(s, ChildStep(i)).children[i];
    SumUpdate(HasWriteEnd, s.children, i, c);
    SumUpdate(HasReadEnd, s.children, i, c);
    hide Sum;
  }

  lemma StepKeepsInv(s: State, t: State)
    requires Inv(s) && Next(s, t)
    ensures Inv(t) && t.total == s.total
  {
    hide Sum;
    var e :| Enabled(s, e) && t == Apply(s, e);
    match e
    case ParentStep => ParentKeepsInv(s);
    case ForkFails =>
    case ChildStep(i) => ChildKeepsInv(s, i);
  }

  predicate EveryChildClosed(s: State) {
    |s.children| == s.total && forall i :: 0 <= i < |s.children| ==> s.children[i] == Exited
  }

  lemma RunKeepsInv(run: seq<State>)
    requires IsRun(Next, run) && Starting(run[0])
    ensures forall k :: 0 <= k < |run| ==> Inv(run[k]) && run[k].total == run[0].total
  {
    var total := run[0].total;
    var inv := (s: State) => Inv(s) && s.total == total;
    forall s, t | inv(s) && Next(s, t)
      ensures inv(t)
    {
      StepKeepsInv(s, t);
    }
    InvariantHolds(Next, inv, run);
    assert forall k :: 0 <= k < |run| ==> inv(run[k]);
  }

  /** The barrier: in every interleaving the parent goes on only after all `total` children have been forked and each
      has closed its write end; and the read returns as soon as they have. */
  lemma BarrierHolds(run: seq<State>, k: nat)
    requires IsRun(Next, run) && Starting(run[0]) && k < |run|
    ensures EndsConserved(run[k]) && run[k].total == run[0].total
    ensures run[k].parent == Ready ==> EveryChildClosed(run[k])
    ensures run[k].parent == ReadPipe ==> (Enabled(run[k], ParentStep) <==> EveryChildClosed(run[k]))
  {
    RunKeepsInv(run);
    SumZero(HasWriteEnd, run[k].children);
  }

  // ---------------------------------------------------------------------------------------------
  // The barrier opens

  function ChildRank(c: ChildPc): nat {
    match c
    case CloseRead => 3
    case Work => 2
    case CloseOwnWrite => 1
    case Exited => 0
  }

  function Measure(s: State): nat
    requires |s.children| <= s.total
  {
    Sum(ChildRank, s.children)
      + match s.parent
        case Fork => 4 * (s.total - |s.children|) + 3
        case CloseWrite => 2
        case ReadPipe => 1
        case _ => 0
  }

  function Steps(s: State): nat {
    if |s.children| <= s.total then Measure(s) else 0
  }

  lemma StepLowersMeasure(s: State, t: State)
    requires Inv(s) && Next(s, t)
    ensures Inv(t) && Steps(t) < Steps(s)
  {
    StepKeepsInv(s, t);
    hide Inv, Apply, Enabled, Steps;
    var e :| Enabled(s, e) && t == Apply(s, e);
    match e
    case ParentStep => ParentLowersMeasure(s);
    case ForkFails => FailureLowersMeasure(s);
    case ChildStep(i) => ChildLowersMeasure(s, i);
  }

  lemma FailureLowersMeasure(s: State)
    requires Inv(s) && Enabled(s, ForkFails)
    ensures Steps(Apply(s, ForkFails)) < Steps(s)
  {
    hide EndsConserved;
  }

  lemma ChildLowersMeasure(s: State, i: nat)
    requires Inv(s) && Enabled(s, ChildStep(i))
    ensures Steps(Apply(s, ChildStep(i))) < Steps(s)
  {
    hide EndsConserved;
    SumUpdate(ChildRank, s.children, i, Apply(s, ChildStep(i)).children[i]);
    hide Sum;
  }

  lemma ParentLowersMeasure(s: State)
    requires Inv(s) && Enabled(s, ParentStep)
    ensures Steps(Apply(s, ParentStep)) < Steps(s)
  {
    hide EndsConserved;
    SumAppend(ChildRank, s.children, CloseRead);
    hide Sum;
  }

  ghost predicate Stuck(s: State) {
    forall e :: !Enabled(s, e)
  }

  /** Every run ends, within four steps for each child and three for the parent, and unless a fork fails it ends with
      the parent past the barrier. */
  lemma BarrierOpens(run: seq<State>)
    requires IsRun(Next, run) && Starting(run[0])
    ensures |run| - 1 <= 4 * run[0].total + 3
    ensures Stuck(run[|run| - 1]) ==>
      run[|run| - 1].parent == Failed || (run[|run| - 1].parent == Ready && EveryChildClosed(run[|run| - 1]))
  {
    RunKeepsInv(run);
    forall s, t | Inv(s) && Next(s, t)
      ensures Inv(t) && Steps(t) < Steps(s)
    {
      StepLowersMeasure(s, t);
    }
    RunIsBounded(Next, Inv, Steps, run);
    if Stuck(run[|run| - 1]) {
      StuckMeansThrough(run[|run| - 1]);
    }
  }

  /** A child that has not exited can make its next step: the end it is about to close is open. */
  lemma ChildHoldsEnds(s: State, i: nat)
    requires Inv(s) && i < |s.children| && s.children[i] != Exited
    ensures Enabled(s, ChildStep(i))
  {
    SumUpdate(HasWriteEnd, s.children, i, s.children[i]);
    SumUpdate(HasReadEnd, s.children, i, s.children[i]);
  }

  /** Nothing blocks but the parent's read, until every child has closed its write end; and a fork may fail at any
      child. */
  lemma BlocksExactly(s: State, e: Event)
    requires Inv(s)
    ensures Enabled(s, e) <==>
      match e
      case ParentStep => s.parent in {Fork, CloseWrite} || (s.parent == ReadPipe && EveryChildClosed(s))
      case ForkFails => s.parent == Fork && |s.children| < s.total
      case ChildStep(i) => i < |s.children| && s.children[i] != Exited
  {
    SumZero(HasWriteEnd, s.children);
    if e.ChildStep? && e.i < |s.children| && s.children[e.i] != Exited {
      ChildHoldsEnds(s, e.i);
    }
    hide Sum;
  }

  lemma StuckMeansThrough(s: State)
    requires Inv(s) && Stuck(s)
    ensures s.parent == Failed || (s.parent == Ready && EveryChildClosed(s))
  {
    assert !Enabled(s, ParentStep);
    forall i | 0 <= i < |s.children|
      ensures s.children[i] == Exited
    {
      assert !Enabled(s, ChildStep(i));
      if s.children[i] != Exited {
        ChildHoldsEnds(s, i);
      }
    }
    SumZero(HasWriteEnd, s.children);
  }
}
