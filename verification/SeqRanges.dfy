/** The ranges of sequence numbers a server hands out: request after request, each starting where the last one ended. */
module SeqRanges {

  /** A processed request: whose it was, the number it was given and how many numbers it asked for. */
  datatype Grant = Grant(pid: nat, start: nat, len: nat)

  function Total(gs: seq<Grant>): nat {
    if gs == [] then 0 else Total(gs[..|gs| - 1]) + gs[|gs| - 1].len
  }

  /** Each grant starts at the sum of all earlier lengths. */
  predicate Tiled(gs: seq<Grant>) {
    forall k :: 0 <= k < |gs| ==> gs[k].start == Total(gs[..k])
  }

  predicate Covers(g: Grant, x: nat) {
    g.start <= x < g.start + g.len
  }

  predicate Covered(gs: seq<Grant>, x: nat) {
    exists k :: 0 <= k < |gs| && Covers(gs[k], x)
  }

  lemma TotalAppend(gs: seq<Grant>, g: Grant)
    ensures Total(gs + [g]) == Total(gs) + g.len
  {
    assert (gs + [g])[..|gs|] == gs;
  }

  lemma TiledAppend(gs: seq<Grant>, g: Grant)
    requires Tiled(gs) && g.start == Total(gs)
    ensures Tiled(gs + [g]) && Total(gs + [g]) == Total(gs) + g.len
  {
    TotalAppend(gs, g);
    forall k | 0 <= k < |gs + [g]|
      ensures (gs + [g])[k].start == Total((gs + [g])[..k])
    {
      assert (gs + [g])[..k] == gs[..k];
    }
  }

  lemma {:induction false} TotalGrows(gs: seq<Grant>, j: nat, k: nat)
    requires j < k <= |gs|
    ensures Total(gs[..j]) + gs[j].len <= Total(gs[..k])
  {
    assert gs[..k][..k - 1] == gs[..k - 1];
    if j == k - 1 {
    } else {
      TotalGrows(gs, j, k - 1);
    }
  }

  /** The ranges are in order, so no number is handed out twice. */
  lemma RangesDisjoint(gs: seq<Grant>, j: nat, k: nat)
    requires Tiled(gs) && j < k < |gs|
    ensures gs[j].start + gs[j].len <= gs[k].start
  {
    TotalGrows(gs, j, k);
  }

  lemma CoveredAppend(gs: seq<Grant>, g: Grant, x: nat)
    ensures Covered(gs + [g], x) <==> Covered(gs, x) || Covers(g, x)
  {
    var all := gs + [g];
    assert all[|gs|] == g;
    if k :| 0 <= k < |gs| && Covers(gs[k], x) {
      assert Covers(all[k], x);
    }
  }

  lemma TiledPrefix(gs: seq<Grant>)
    requires Tiled(gs) && gs != []
    ensures Tiled(gs[..|gs| - 1]) && gs[|gs| - 1].start == Total(gs[..|gs| - 1])
  {
    var before := gs[..|gs| - 1];
    forall k | 0 <= k < |before|
      ensures before[k].start == Total(before[..k])
    {
      assert before[..k] == gs[..k];
    }
  }

  /** The ranges leave no gap: exactly the numbers below the total are handed out. */
  lemma {:induction false} RangesTile(gs: seq<Grant>, x: nat)
    requires Tiled(gs)
    ensures Covered(gs, x) <==> x < Total(gs)
  {
    if gs == [] {
    } else {
      var before, last := gs[..|gs| - 1], gs[|gs| - 1];
      TiledPrefix(gs);
      assert gs == before + [last];
      CoveredAppend(before, last, x);
      hide Covered, Tiled;
      RangesTile(before, x);
    }
  }

  /** No number is handed out twice, and exactly the numbers below the total are handed out. */
  ghost predicate Tiles(gs: seq<Grant>) {
    && (forall j, k :: 0 <= j < k < |gs| ==> gs[j].start + gs[j].len <= gs[k].start)
    && (forall x: nat :: Covered(gs, x) <==> x < Total(gs))
  }

  lemma TiledMeansTiles(gs: seq<Grant>)
    requires Tiled(gs)
    ensures Tiles(gs)
  {
    forall j, k | 0 <= j < k < |gs|
      ensures gs[j].start + gs[j].len <= gs[k].start
    {
      RangesDisjoint(gs, j, k);
    }
    forall x: nat
      ensures Covered(gs, x) <==> x < Total(gs)
    {
      RangesTile(gs, x);
    }
  }

  lemma {:induction false} UnitTotal(gs: seq<Grant>)
    requires forall k :: 0 <= k < |gs| ==> gs[k].len == 1
    ensures Total(gs) == |gs|
  {
    if gs == [] {
    } else {
      UnitTotal(gs[..|gs| - 1]);
    }
  }

  /** With requests of length one, the k-th request gets the number k. */
  lemma UnitStart(gs: seq<Grant>, k: nat)
    requires Tiled(gs) && k < |gs| && forall j :: 0 <= j < |gs| ==> gs[j].len == 1
    ensures gs[k].start == k
  {
    UnitTotal(gs[..k]);
  }
}
