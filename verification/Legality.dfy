/** Which operations the detector accepts at the end of a run, and what they then do: nothing but a race, an
    uninitialised access or an unreadable record stops a program. */
module Legality {
  import opened Clocks
  import opened Memory
  import opened HappensBefore
  import opened Represent
  import opened Coherence

  lemma RunGrows(c: Config, tr: Trace, m: nat)
    requires Run(c, tr, m) && Legal(c, tr, m)
    ensures m < |tr| && Run(c, tr, m + 1)
  {
    hide Enabled, At, RmwPaired;
  }

  lemma RunStarts(c: Config, tr: Trace)
    ensures Run(c, tr, 0)
  {
  }

  /** The orders that a plain store may have. */
  predicate StoreOrder(mo: Order) {
    mo == Relaxed || mo == Release || mo == SeqCst
  }

  predicate LoadOrder(mo: Order) {
    mo == Relaxed || mo == Acquire || mo == SeqCst
  }

  /** Main theorem: in every run, an in-range store with relaxed, release or seq_cst order, or the store half of an RMW
      right after its load half, is legal. It makes the history of its atomic one record longer, the new record carries
      the value and the thread, and no other atomic changes. */
  lemma StoresTakeEffect(c: Config, tr: Trace, m: nat)
    requires Run(c, tr, m) && m < |tr| && tr[m].Store? && InRange(c, tr[m])
    ensures Legal(c, tr, m) <==> if tr[m].rmw then RmwPaired(tr, m) else StoreOrder(tr[m].mo)
    ensures Legal(c, tr, m) ==>
              var was, now := At(c, tr, m).atomics, At(c, tr, m + 1).atomics;
              var a := tr[m].a;
              && |now[a]| == |was[a]| + 1 && now[a][..|was[a]|] == was[a]
              && now[a][|was[a]|].value == tr[m].value && now[a][|was[a]|].writer == tr[m].t
              && forall b :: 0 <= b < c.atomics && b != a ==> now[b] == was[b]
  {
    var s := At(c, tr, m);
    if Legal(c, tr, m) {
      assert At(c, tr, m + 1) == Apply(c, s, tr[m]);
      hide At, Enabled, Apply;
      Effects(c, s, tr[m]);
    }
  }

  /** Main theorem: every fence but a relaxed one is legal. An acquire fence gives its thread the larger of its
      clock and its acquire fence clock; a release fence stores the resulting clock; a seq_cst fence merges the
      common clock as well and leaves the result in it. */
  lemma FencesTakeEffect(c: Config, tr: Trace, m: nat)
    requires Run(c, tr, m) && m < |tr| && tr[m].Fence? && InRange(c, tr[m])
    ensures Legal(c, tr, m) <==> tr[m].mo != Relaxed
    ensures Legal(c, tr, m) ==> FenceDone(At(c, tr, m), At(c, tr, m + 1), tr[m].t, tr[m].mo, c.threads)
  {
  }

  predicate FenceDone(s: State, r: State, t: nat, mo: Order, n: nat) {
    && t < |s.threads| && t < |r.threads| && ThreadOk(n, s.threads[t]) && ThreadOk(n, r.threads[t]) && |s.scFence| == n
    && var (th, th') := (s.threads[t], r.threads[t]);
    && (forall u :: 0 <= u < n ==>
          var read := if Acquires(mo) && th.acqFence[u] > th.clock[u] then th.acqFence[u] else th.clock[u];
          th'.clock[u] == if mo == SeqCst && s.scFence[u] > read then s.scFence[u] else read)
    && th'.relFence == (if Releases(mo) then th'.clock else th.relFence)
    && r.scFence == (if mo == SeqCst then th'.clock else s.scFence)
    && r.atomics == s.atomics && r.vars == s.vars && r.syncs == s.syncs
  }

  /** Main theorem: a load is always possible once the atomic has a value: the newest record may be read, with any load
      order, and by an RMW it is the only one; without a record no load is legal. */
  lemma NewestIsReadable(c: Config, tr: Trace, m: nat)
    requires Run(c, tr, m) && m < |tr| && tr[m].Load? && InRange(c, tr[m]) && (tr[m].rmw || LoadOrder(tr[m].mo))
    ensures tr[m].k == |Writes(tr, m, tr[m].a)| - 1 ==> Legal(c, tr, m)
    ensures Legal(c, tr, m) ==>
              tr[m].k < |Writes(tr, m, tr[m].a)| && (tr[m].rmw ==> tr[m].k == |Writes(tr, m, tr[m].a)| - 1)
  {
    HistoryLength(c, tr, m, tr[m].a);
    hide Writes, At, Run;
    NewestOf(c, At(c, tr, m), tr[m]);
  }

  lemma NewestOf(c: Config, s: State, e: Event)
    requires Typed(c, s) && e.Load? && InRange(c, e) && (e.rmw || LoadOrder(e.mo))
    ensures e.k == |s.atomics[e.a]| - 1 ==> Enabled(c, s, e)
    ensures Enabled(c, s, e) ==> e.k < |s.atomics[e.a]| && (e.rmw ==> e.k == |s.atomics[e.a]| - 1)
  {
    assert forall k :: 0 <= k < |s.atomics[e.a]| ==> RecordOk(c.threads, s.atomics[e.a][k]);
  }

  /** A load that is legal changes no record but for the mark that its thread has seen this one. */
  lemma LoadsKeepHistories(c: Config, tr: Trace, m: nat)
    requires Run(c, tr, m + 1) && tr[m].Load?
    ensures tr[m].a < c.atomics && tr[m].k < |At(c, tr, m).atomics[tr[m].a]|
    ensures var was, now := At(c, tr, m).atomics, At(c, tr, m + 1).atomics;
            && (forall b :: 0 <= b < c.atomics && b != tr[m].a ==> now[b] == was[b])
            && |now[tr[m].a]| == |was[tr[m].a]|
            && forall k :: 0 <= k < |was[tr[m].a]| ==>
                 && now[tr[m].a][k].(seen := []) == was[tr[m].a][k].(seen := [])
                 && (k != tr[m].k ==> now[tr[m].a][k] == was[tr[m].a][k])
  {
    var s := At(c, tr, m);
    assert Legal(c, tr, m);
    InRangeOf(c, s, tr[m]);
    Effects(c, s, tr[m]);
    hide Enabled;
  }

  /** Sync variables, yields and the global fence are never refused. */
  lemma NeverRefused(c: Config, tr: Trace, m: nat)
    requires Run(c, tr, m) && m < |tr| && InRange(c, tr[m])
    requires var e := tr[m];
             e.SyncAcquire? || e.SyncRelease? || e.SyncAcqRel? || e.Yield? || e.GlobalFence?
    ensures Legal(c, tr, m)
    ensures tr[m].Yield? ==>
              At(c, tr, m + 1).threads[tr[m].t].lastYield == At(c, tr, m).threads[tr[m].t].clock[tr[m].t]
  {
  }

  /** Two threads, one atomic: thread 0 stores 7, thread 1 reads it, and an RMW of thread 1 replaces it by 8. */
  function Sample(): Trace {
    [Store(0, 0, Relaxed, false, 7), Load(1, 0, 0, Acquire, false), Load(1, 0, 0, AcqRel, true),
     Store(1, 0, AcqRel, true, 8), Fence(1, SeqCst), Load(0, 0, 1, SeqCst, false)]
  }

  function SampleConfig(): Config {
    Config(2, 0, 1, 0, 1)
  }

  lemma SampleWrites()
    ensures var tr := Sample();
            && Writes(tr, 1, 0) == [0] && Writes(tr, 2, 0) == [0] && Writes(tr, 3, 0) == [0]
            && Writes(tr, 4, 0) == [0, 3] && Writes(tr, 5, 0) == [0, 3]
  {
    var tr := Sample();
    assert Writes(tr, 0, 0) == [];
  }

  /** There is a run that initialises an atomic, reads it, and updates it. */
  lemma SampleRuns()
    ensures var (c, tr) := (SampleConfig(), Sample());
            Run(c, tr, 6) && |At(c, tr, 6).atomics[0]| == 2 && At(c, tr, 6).atomics[0][1].value == 8
  {
    var (c, tr) := (SampleConfig(), Sample());
    SampleWrites();
    hide At, Enabled, Apply, Writes;
    StoresTakeEffect(c, tr, 0);
    NewestIsReadable(c, tr, 1);
    NewestIsReadable(c, tr, 2);
    StoresTakeEffect(c, tr, 3);
    FencesTakeEffect(c, tr, 4);
    NewestIsReadable(c, tr, 5);
    HistoryLength(c, tr, 3, 0);
    LoadsKeepHistories(c, tr, 5);
  }
}
