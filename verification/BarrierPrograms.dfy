/** The parent and the children of `pipe_sync` as statements, over the kernel's counts of open pipe ends. */
module BarrierPrograms {
  import opened Runs
  import opened PipeBarrier

  class Barrier {
    const total: nat
    var parent: ParentPc
    var children: seq<ChildPc>
    var readers: nat
    var writers: nat

    ghost function View(): State
      reads this
    {
      State(total, parent, children, readers, writers)
    }

    /** pipe(): one read end and one write end, both the parent's. */
    constructor (total: nat)
      ensures Inv(View()) && Starting(View()) && this.total == total
    {
      this.total, this.parent, this.children, this.readers, this.writers := total, Fork, [], 1, 1;
    }

    /** The parent's fork loop when no child runs in between; `ForkOne` is its body, which may be interleaved. */
    method ForkAll()
      requires Inv(View()) && parent == Fork
      modifies this
      ensures Inv(View()) && parent == CloseWrite && |children| == total && old(children) <= children
      ensures forall i :: |old(children)| <= i < total ==> children[i] == CloseRead
      ensures readers - total == old(readers - |children|) && writers - total == old(writers - |children|)
    {
      while |children| < total
        invariant Inv(View()) && parent == Fork && old(children) <= children
        invariant forall i :: |old(children)| <= i < |children| ==> children[i] == CloseRead
        invariant readers - |children| == old(readers - |children|) && writers - |children| == old(writers - |children|)
      {
        ForkOne();
      }
      ghost var before := View();
      parent := CloseWrite;
      assert Enabled(before, ParentStep) && View() == Apply(before, ParentStep);
      StepKeepsInv(before, View());
    }

    /** One fork: the child inherits both ends. */
    method ForkOne()
      requires Inv(View()) && parent == Fork && |children| < total
      modifies this
      ensures Inv(View()) && View() == old(Apply(View(), ParentStep))
    {
      ghost var before := View();
      children, readers, writers := children + [CloseRead], readers + 1, writers + 1;
      assert Enabled(before, ParentStep) && View() == Apply(before, ParentStep);
      StepKeepsInv(before, View());
    }

    /** The parent closes its write end, or reads: the read blocks until every write end is closed. */
    method ParentGoesOn() returns (moved: bool)
      requires Inv(View()) && parent in {CloseWrite, ReadPipe}
      modifies this
      ensures Inv(View())
      ensures moved <==> old(Enabled(View(), ParentStep))
      ensures View() == if moved then old(Apply(View(), ParentStep)) else old(View())
    {
      ghost var before := View();
      moved := parent == CloseWrite || writers == 0;
      if parent == CloseWrite {
        writers, parent := writers - 1, ReadPipe;
      } else if writers == 0 {
        parent := Ready;
      }
      if moved {
        assert Enabled(before, ParentStep) && View() == Apply(before, ParentStep);
        StepKeepsInv(before, View());
      }
    }

    /** One statement of a child. */
    method ChildGoesOn(i: nat)
      requires Inv(View()) && i < |children| && children[i] != Exited
      modifies this
      ensures Inv(View())
      ensures old(Enabled(View(), ChildStep(i))) && View() == old(Apply(View(), ChildStep(i)))
    {
      ghost var before := View();
      ChildHoldsEnds(before, i);
      match children[i] {
        case CloseRead => readers, children := readers - 1, children[i := Work];
        case Work => children := children[i := CloseOwnWrite];
        case CloseOwnWrite => writers, children := writers - 1, children[i := Exited];
      }
      assert Enabled(before, ChildStep(i)) && View() == Apply(before, ChildStep(i));
      StepKeepsInv(before, View());
    }

    /** Process `j` tries its next statement: the child of that number, or the parent. */
    method Turn(j: nat) returns (moved: bool)
      requires Inv(View()) && parent != Failed
      modifies this
      ensures Inv(View()) && parent != Failed
      ensures moved <==> old(Enabled(View(), StepOf(View(), j)))
      ensures View() == old(Attempt(View(), j)) && (!moved ==> View() == old(View()))
    {
      hide Inv;
      moved := true;
      if j < |children| {
        if children[j] == Exited {
          moved := false;
        } else {
          ChildGoesOn(j);
        }
      } else if parent == Fork {
        if |children| < total {
          ForkOne();
        } else {
          ForkAll();
        }
      } else if parent == Ready {
        moved := false;
      } else {
        moved := ParentGoesOn();
      }
    }

    /** Parent and children under a schedule: the processes named in `turns` are tried in that order, and then all of
        them one after the other until none can move; `picks` are all these attempts. It always ends with the parent
        past the barrier. */
    method Sync(turns: seq<nat>) returns (ghost picks: seq<nat>)
      requires Inv(View()) && Starting(View())
      modifies this
      ensures turns <= picks && View() == Replay(Attempt, old(View()), picks)
      ensures parent == Ready && EveryChildClosed(View())
    {
      hide Inv, Attempt, Enabled, Steps;
      ghost var start := View();
      picks := [];
      var moved: bool;
      for k := 0 to |turns|
        invariant Inv(View()) && parent != Failed
        invariant picks == turns[..k] && View() == Replay(Attempt, start, picks)
      {
        ReplayOneMore(Attempt, start, picks, turns[k]);
        moved := Turn(turns[k]);
        picks := picks + [turns[k]];
      }
      var blocked: nat := 0;
      while blocked <= |children|
        invariant Inv(View()) && parent != Failed
        invariant turns <= picks && View() == Replay(Attempt, start, picks)
        invariant forall j: nat :: j < blocked ==> !Enabled(View(), StepOf(View(), j))
        decreases Steps(View()), |children| + 1 - blocked
      {
        ReplayOneMore(Attempt, start, picks, blocked);
        TurnLowers(View(), blocked);
        moved := Turn(blocked);
        picks := picks + [blocked];
        blocked := if moved then 0 else blocked + 1;
      }
      BlockedMeansThrough(View());
    }
  }

  /** The next statement of process `j`. */
  function StepOf(s: State, j: nat): Event {
    if j < |s.children| then ChildStep(j) else ParentStep
  }

  function Attempt(s: State, j: nat): State {
    if Enabled(s, StepOf(s, j)) then Apply(s, StepOf(s, j)) else s
  }

  lemma TurnLowers(s: State, j: nat)
    requires Inv(s)
    ensures Enabled(s, StepOf(s, j)) ==> Steps(Attempt(s, j)) < Steps(s)
  {
    hide Inv, Enabled, Apply, Steps;
    if Enabled(s, StepOf(s, j)) {
      assert Next(s, Attempt(s, j));
      StepLowersMeasure(s, Attempt(s, j));
    }
  }

  lemma BlockedMeansThrough(s: State)
    requires Inv(s) && s.parent != Failed
    requires forall j: nat :: j <= |s.children| ==> !Enabled(s, StepOf(s, j))
    ensures s.parent == Ready && EveryChildClosed(s)
  {
    assert !Enabled(s, StepOf(s, |s.children|));
    forall e
      ensures !Enabled(s, e)
    {
      if e.ChildStep? && e.i < |s.children| {
        assert !Enabled(s, StepOf(s, e.i));
      }
    }
    StuckMeansThrough(s);
  }
}
