/** What an operation directly depends on, operation by operation: the sets whose
    clocks the detector merges are the sources of its happens-before edges. */
module Dependencies {
  import opened Clocks
  import opened Memory
  import opened HappensBefore

  /** Operations that take nothing from anybody: only the thread's own past counts. */
  predicate Plain(e: Event) {
    || e.VarLoad? || e.VarStore? || e.SyncRelease? || e.Store? || e.Yield?
    || (e.Load? && !Acquires(e.mo)) || (e.Fence? && e.mo != SeqCst && !Acquires(e.mo))
  }

  lemma PredsPlain(tr: Trace, m: nat)
    requires m < |tr| && Plain(tr[m])
    ensures Preds(tr, m) == ThreadOps(tr, m, tr[m].t)
  {
    assert forall l: nat :: !Tail(tr, l, m);
  }

  lemma PredsSync(tr: Trace, m: nat)
    requires m < |tr| && (tr[m].SyncAcquire? || tr[m].SyncAcqRel?)
    ensures Preds(tr, m) == ThreadOps(tr, m, tr[m].t) + SyncOps(tr, m, tr[m].s)
  {
    assert forall l: nat :: !Tail(tr, l, m);
  }

  /** The heads of a record lie at or before its store. */
  lemma HeadsBefore(tr: Trace, a: nat, k: nat, h: nat)
    requires k < |Mo(tr, a)| && h in Heads(tr, a, k)
    ensures h <= Mo(tr, a)[k]
  {
    var y: nat :| InSequence(tr, a, y, k) && Head(tr, h, Mo(tr, a)[y]);
  }

  lemma PredsAcquireLoad(tr: Trace, m: nat)
    requires m < |tr| && tr[m].Load? && Acquires(tr[m].mo)
    requires tr[m].k < |Mo(tr, tr[m].a)| && Mo(tr, tr[m].a)[tr[m].k] < m
    ensures Preds(tr, m) == ThreadOps(tr, m, tr[m].t) + Heads(tr, tr[m].a, tr[m].k)
  {
    assert Tail(tr, m, m);
    assert forall l: nat :: Tail(tr, l, m) ==> l == m;
    forall h | h in Heads(tr, tr[m].a, tr[m].k)
      ensures h in Preds(tr, m)
    {
      HeadsBefore(tr, tr[m].a, tr[m].k, h);
      assert SyncsWith(tr, h, m);
    }
  }

  /** Every read reads a store that precedes it. */
  predicate ReadsPast(tr: Trace, m: nat) {
    forall l :: 0 <= l < m && l < |tr| && tr[l].Load? ==>
      tr[l].k < |Mo(tr, tr[l].a)| && Mo(tr, tr[l].a)[tr[l].k] < l
  }

  /** The release operations read so far by thread t, in any way. */
  ghost function AllRead(tr: Trace, m: nat, t: nat): set<nat>
  {
    set l, h | 0 <= l < m && l < |tr| && tr[l].Load? && tr[l].t == t && h in Heads(tr, tr[l].a, tr[l].k) :: h
  }

  lemma AcquiredBelow(tr: Trace, l: nat, h: nat)
    requires l < |tr| && tr[l].Load? && Acquires(tr[l].mo)
    requires tr[l].k < |Mo(tr, tr[l].a)| && Mo(tr, tr[l].a)[tr[l].k] < l
    requires h in Heads(tr, tr[l].a, tr[l].k)
    ensures HB(tr, h, l)
  {
    PredsAcquireLoad(tr, l);
    assert h in Preds(tr, l);
  }

  lemma AllReadBelow(tr: Trace, m: nat, t: nat, h: nat)
    requires m <= |tr| && ReadsPast(tr, m) && h in AllRead(tr, m, t)
    ensures h < m
    ensures exists k :: k in ThreadOps(tr, m, t) + PendingOps(tr, m, t) && (h == k || HB(tr, h, k))
  {
    hide HB, HeadOf, Edge;
    var l :| 0 <= l < m && tr[l].Load? && tr[l].t == t && h in Heads(tr, tr[l].a, tr[l].k);
    HeadsBefore(tr, tr[l].a, tr[l].k, h);
    if Acquires(tr[l].mo) {
      AcquiredBelow(tr, l, h);
      assert l in ThreadOps(tr, m, t);
      assert l in ThreadOps(tr, m, t) + PendingOps(tr, m, t);
    } else {
      assert h in PendingOps(tr, m, t);
      assert h in ThreadOps(tr, m, t) + PendingOps(tr, m, t);
    }
  }

  lemma PredsFence(tr: Trace, m: nat)
    requires m < |tr| && AcquireFence(tr[m]) && ReadsPast(tr, m)
    ensures Preds(tr, m) ==
            ThreadOps(tr, m, tr[m].t) + AllRead(tr, m, tr[m].t) + (if ScFence(tr[m]) then ScOps(tr, m) else {})
  {
    var t := tr[m].t;
    forall h | h in AllRead(tr, m, t)
      ensures h in Preds(tr, m)
    {
      AllReadBelow(tr, m, t, h);
      var l :| 0 <= l < m && tr[l].Load? && tr[l].t == t && h in Heads(tr, tr[l].a, tr[l].k);
      assert Tail(tr, l, m) && SyncsWith(tr, h, m);
    }
    forall h | h in Preds(tr, m)
      ensures h in ThreadOps(tr, m, t) + AllRead(tr, m, t) + (if ScFence(tr[m]) then ScOps(tr, m) else {})
    {
      if SyncsWith(tr, h, m) {
        var l: nat :| Tail(tr, l, m) && HeadOf(tr, tr[l].a, tr[l].k, h);
        assert h in Heads(tr, tr[l].a, tr[l].k);
      }
    }
  }

  /** An acquire fence brings in what was read without acquiring, and nothing else. */
  lemma BelowPredsFence(tr: Trace, m: nat)
    requires m < |tr| && AcquireFence(tr[m]) && ReadsPast(tr, m)
    ensures Below(tr, Preds(tr, m)) ==
            Below(tr, ThreadOps(tr, m, tr[m].t) + PendingOps(tr, m, tr[m].t)
                      + (if ScFence(tr[m]) then ScOps(tr, m) else {}))
  {
    var t := tr[m].t;
    var sc := if ScFence(tr[m]) then ScOps(tr, m) else {};
    var base := ThreadOps(tr, m, t) + PendingOps(tr, m, t);
    PredsFence(tr, m);
    forall h | h in PendingOps(tr, m, t)
      ensures h in AllRead(tr, m, t)
    {
      var l :| 0 <= l < m && RelaxedRead(tr[l], t) && h in Heads(tr, tr[l].a, tr[l].k);
    }
    forall h | h in AllRead(tr, m, t)
      ensures exists k :: k in base + sc && (h == k || HB(tr, h, k))
    {
      AllReadBelow(tr, m, t, h);
      var k :| k in base && (h == k || HB(tr, h, k));
      assert k in base + sc;
    }
    BelowAbsorbs(tr, base + sc, AllRead(tr, m, t));
    assert Preds(tr, m) == base + sc + AllRead(tr, m, t);
  }

  /** All that thread t has done is below its latest operation. */
  lemma ThreadOpsBelowLast(tr: Trace, m: nat)
    requires m < |tr| && !tr[m].GlobalFence?
    ensures ThreadOps(tr, m + 1, tr[m].t) == ThreadOps(tr, m, tr[m].t) + {m}
    ensures Below(tr, ThreadOps(tr, m + 1, tr[m].t)) == Past(tr, m)
  {
    var own := ThreadOps(tr, m, tr[m].t);
    assert ThreadOps(tr, m + 1, tr[m].t) == {m} + own;
    forall j | j in own
      ensures exists k :: k in {m} && (j == k || HB(tr, j, k))
    {
      assert Edge(tr, j, m);
      assert m in {m} && HB(tr, j, m);
    }
    BelowAbsorbs(tr, {m}, own);
    BelowOne(tr, m);
  }

  /** Past of m absorbs any set of operations that m directly depends on. */
  lemma LastAbsorbs(tr: Trace, m: nat, ops: set<nat>)
    requires m < |tr| && forall j :: j in ops ==> Edge(tr, j, m)
    ensures Below(tr, ops + {m}) == Past(tr, m)
  {
    forall j | j in ops
      ensures exists k :: k in {m} && (j == k || HB(tr, j, k))
    {
      assert m in {m} && HB(tr, j, m);
    }
    BelowAbsorbs(tr, {m}, ops);
    assert {m} + ops == ops + {m};
    BelowOne(tr, m);
  }
}
