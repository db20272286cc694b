/** Every clock of the detector represents the causal past of the operations that feed it. */
module Represent {
  import opened Clocks
  import opened Memory
  import opened HappensBefore
  import opened Dependencies
  import opened Exactness

  ghost predicate ThreadRep(c: Config, tr: Trace, m: nat, th: Thread, t: nat) {
    && Rep(c, tr, m, th.clock, ThreadOps(tr, m, t))
    && Rep(c, tr, m, th.acqFence, PendingOps(tr, m, t))
    && Rep(c, tr, m, th.relFence, ReleaseOps(tr, m, t))
  }

  /** Record k is the k-th store, with its value, timestamp and order, and publishes its release sequence. */
  ghost predicate RecordRep(c: Config, tr: Trace, m: nat, r: Record, a: nat, k: nat) {
    && k < |Mo(tr, a)| && Mo(tr, a)[k] < m && Acts(c, tr, Mo(tr, a)[k])
    && r.writer == tr[Mo(tr, a)[k]].t && r.stamp == Stamp(c, tr, Mo(tr, a)[k])
    && r.seqCst == (tr[Mo(tr, a)[k]].mo == SeqCst) && r.value == tr[Mo(tr, a)[k]].value
    && Rep(c, tr, m, r.order, Heads(tr, a, k))
  }

  ghost predicate HistoryRep(c: Config, tr: Trace, m: nat, recs: seq<Record>, a: nat)
    requires m <= |tr|
  {
    |recs| == |Writes(tr, m, a)| && forall k :: 0 <= k < |recs| ==> RecordRep(c, tr, m, recs[k], a, k)
  }

  ghost predicate Inv(c: Config, tr: Trace, m: nat)
    requires m <= |tr|
  {
    var s := At(c, tr, m);
    && (forall t :: 0 <= t < c.threads ==> ThreadRep(c, tr, m, s.threads[t], t))
    && (forall i :: 0 <= i < c.syncs ==> Rep(c, tr, m, s.syncs[i], SyncOps(tr, m, i)))
    && (forall a :: 0 <= a < c.atomics ==> HistoryRep(c, tr, m, s.atomics[a], a))
    && Rep(c, tr, m, s.scFence, ScOps(tr, m))
    && ReadsPast(tr, m)
  }

  // ---- threads

  lemma OtherThread(c: Config, tr: Trace, m: nat, th: Thread, t: nat)
    requires m < |tr| && t < c.threads && !tr[m].GlobalFence? && tr[m].t != t
    requires ThreadRep(c, tr, m, th, t) && ReadsPast(tr, m)
    requires Within(th.clock, At(c, tr, m).threads) && Within(th.acqFence, At(c, tr, m).threads)
             && Within(th.relFence, At(c, tr, m).threads)
    ensures ThreadRep(c, tr, m + 1, th, t)
  {
    hide Apply, Enabled;
    assert ThreadOps(tr, m + 1, t) == ThreadOps(tr, m, t);
    assert ReleaseOps(tr, m + 1, t) == ReleaseOps(tr, m, t);
    assert PendingOps(tr, m + 1, t) == PendingOps(tr, m, t);
    PendingBefore(tr, m, t);
    RepKeep(c, tr, m, th.clock, ThreadOps(tr, m, t));
    RepKeep(c, tr, m, th.acqFence, PendingOps(tr, m, t));
    RepKeep(c, tr, m, th.relFence, ReleaseOps(tr, m, t));
  }

  lemma PendingBefore(tr: Trace, m: nat, t: nat)
    requires m <= |tr| && ReadsPast(tr, m)
    ensures forall h :: h in PendingOps(tr, m, t) ==> h < m
  {
    forall h | h in PendingOps(tr, m, t)
      ensures h < m
    {
      var l :| 0 <= l < m && RelaxedRead(tr[l], t) && h in Heads(tr, tr[l].a, tr[l].k);
      HeadsBefore(tr, tr[l].a, tr[l].k, h);
    }
  }

  /** An operation that merges nothing: the thread's clock ticks or stays. */
  lemma PlainClock(c: Config, tr: Trace, m: nat, before: Clock, after: Clock)
    requires Run(c, tr, m + 1) && Plain(tr[m]) && Owned(c, tr, m) && after == Known(c, tr, m)
    requires Rep(c, tr, m, before, ThreadOps(tr, m, tr[m].t))
    requires before == At(c, tr, m).threads[tr[m].t].clock
    requires after == if Stamped(tr[m]) then Tick(before, tr[m].t) else before
    ensures Rep(c, tr, m + 1, after, ThreadOps(tr, m + 1, tr[m].t))
    ensures Rep(c, tr, m + 1, after, {m})
  {
    hide Apply, Enabled;
    PredsPlain(tr, m);
    assert ThreadOps(tr, m, tr[m].t) + {} == ThreadOps(tr, m, tr[m].t);
    RepGrow(c, tr, m, before, after, ThreadOps(tr, m, tr[m].t), {});
    ThreadOpsBelowLast(tr, m);
  }

  /** An operation that merges the clock of `extra` into its thread's. */
  lemma MergingClock(c: Config, tr: Trace, m: nat, before: Clock, other: Clock, after: Clock, extra: set<nat>)
    requires Run(c, tr, m + 1) && Owned(c, tr, m) && after == Known(c, tr, m)
    requires Rep(c, tr, m, before, ThreadOps(tr, m, tr[m].t)) && Rep(c, tr, m, other, extra)
    requires before == At(c, tr, m).threads[tr[m].t].clock
    requires other[tr[m].t] <= before[tr[m].t]
    requires after == if Stamped(tr[m]) then Max(Tick(before, tr[m].t), other) else Max(before, other)
    requires Below(tr, Preds(tr, m)) == Below(tr, ThreadOps(tr, m, tr[m].t) + extra)
    ensures Rep(c, tr, m + 1, after, ThreadOps(tr, m + 1, tr[m].t))
    ensures Rep(c, tr, m + 1, after, {m})
  {
    hide Apply, Enabled;
    RepMax(c, tr, m, before, ThreadOps(tr, m, tr[m].t), other, extra);
    RepGrow(c, tr, m, Max(before, other), after, ThreadOps(tr, m, tr[m].t), extra);
    ThreadOpsBelowLast(tr, m);
  }

  lemma PendingSame(tr: Trace, m: nat, t: nat)
    requires m < |tr| && !RelaxedRead(tr[m], t)
    ensures PendingOps(tr, m + 1, t) == PendingOps(tr, m, t)
  {
    hide Heads;
  }

  lemma ReleaseSame(tr: Trace, m: nat, t: nat)
    requires m < |tr| && !(ReleaseFence(tr[m]) && tr[m].t == t)
    ensures ReleaseOps(tr, m + 1, t) == ReleaseOps(tr, m, t)
  {
  }

  /** The fence clocks of a thread whose operation is neither a release fence nor a relaxed read. */
  lemma FenceClocksKeep(c: Config, tr: Trace, m: nat, th: Thread, t: nat)
    requires m < |tr| && ThreadRep(c, tr, m, th, t) && ReadsPast(tr, m)
    requires Within(th.acqFence, At(c, tr, m).threads) && Within(th.relFence, At(c, tr, m).threads)
    ensures !RelaxedRead(tr[m], t) ==> Rep(c, tr, m + 1, th.acqFence, PendingOps(tr, m + 1, t))
    ensures !(ReleaseFence(tr[m]) && tr[m].t == t) ==> Rep(c, tr, m + 1, th.relFence, ReleaseOps(tr, m + 1, t))
  {
    PendingBefore(tr, m, t);
    assert forall j :: j in ReleaseOps(tr, m, t) ==> j < m;
    hide *;
    RepKeep(c, tr, m, th.acqFence, PendingOps(tr, m, t));
    RepKeep(c, tr, m, th.relFence, ReleaseOps(tr, m, t));
    if !RelaxedRead(tr[m], t) {
      PendingSame(tr, m, t);
    }
    if !(ReleaseFence(tr[m]) && tr[m].t == t) {
      ReleaseSame(tr, m, t);
    }
  }

  lemma LoadStep(c: Config, tr: Trace, m: nat, th: Thread, r: Record)
    requires Run(c, tr, m + 1) && tr[m].Load? && tr[m].t < c.threads
    requires th == At(c, tr, m).threads[tr[m].t] && ThreadOk(c.threads, th)
    requires ThreadRep(c, tr, m, th, tr[m].t) && RecordRep(c, tr, m, r, tr[m].a, tr[m].k) && ReadsPast(tr, m)
    requires Within(th.acqFence, At(c, tr, m).threads) && Within(th.relFence, At(c, tr, m).threads)
             && Within(r.order, At(c, tr, m).threads)
    requires LoadThread(th, tr[m].t, r, tr[m].mo) == At(c, tr, m + 1).threads[tr[m].t]
    ensures ThreadRep(c, tr, m + 1, LoadThread(th, tr[m].t, r, tr[m].mo), tr[m].t)
  {
    hide Apply, Enabled;
    var t, a, k := tr[m].t, tr[m].a, tr[m].k;
    var heads := Heads(tr, a, k);
    FenceClocksKeep(c, tr, m, th, t);
    if Acquires(tr[m].mo) {
      PredsAcquireLoad(tr, m);
      MergingClock(c, tr, m, th.clock, r.order, Max(Tick(th.clock, t), r.order), heads);
    } else {
      PlainClock(c, tr, m, th.clock, Tick(th.clock, t));
      forall h | h in heads
        ensures h < m
      {
        HeadsBefore(tr, a, k, h);
      }
      PendingBefore(tr, m, t);
      RepMax(c, tr, m, th.acqFence, PendingOps(tr, m, t), r.order, heads);
      RepKeep(c, tr, m, Max(th.acqFence, r.order), PendingOps(tr, m, t) + heads);
      PendingGrows(tr, m);
    }
  }

  lemma PendingGrows(tr: Trace, m: nat)
    requires m < |tr| && tr[m].Load? && !Acquires(tr[m].mo)
    ensures PendingOps(tr, m + 1, tr[m].t) == PendingOps(tr, m, tr[m].t) + Heads(tr, tr[m].a, tr[m].k)
  {
    var t := tr[m].t;
    forall h | h in PendingOps(tr, m + 1, t)
      ensures h in PendingOps(tr, m, t) + Heads(tr, tr[m].a, tr[m].k)
    {
      var l :| 0 <= l < m + 1 && RelaxedRead(tr[l], t) && h in Heads(tr, tr[l].a, tr[l].k);
    }
    forall h | h in PendingOps(tr, m, t) + Heads(tr, tr[m].a, tr[m].k)
      ensures h in PendingOps(tr, m + 1, t)
    {
      if h in PendingOps(tr, m, t) {
        var l :| 0 <= l < m && RelaxedRead(tr[l], t) && h in Heads(tr, tr[l].a, tr[l].k);
        assert 0 <= l < m + 1;
      }
    }
  }

  /** The thread after a fence. */
  function Fenced(th: Thread, mo: Order, sc: Clock): Thread
    requires |th.clock| == |th.acqFence| == |sc|
  {
    match mo
    case Relaxed => th
    case Acquire => FenceAcquire(th)
    case Release => FenceRelease(th)
    case AcqRel => FenceRelease(FenceAcquire(th))
    case SeqCst => FenceSeqCst(th, sc)
  }

  /** After a release fence, the release clock is the thread's clock. */
  lemma ReleaseClock(c: Config, tr: Trace, m: nat, after: Clock)
    requires m < |tr| && ReleaseFence(tr[m]) && Rep(c, tr, m + 1, after, {m})
    ensures Rep(c, tr, m + 1, after, ReleaseOps(tr, m + 1, tr[m].t))
  {
    hide Apply, Enabled;
    assert ReleaseOps(tr, m + 1, tr[m].t) == ReleaseOps(tr, m, tr[m].t) + {m};
    LastAbsorbs(tr, m, ReleaseOps(tr, m, tr[m].t));
    BelowOne(tr, m);
  }

  lemma FenceStep(c: Config, tr: Trace, m: nat, th: Thread, sc: Clock)
    requires Run(c, tr, m + 1) && tr[m].Fence? && tr[m].t < c.threads && tr[m].mo != Relaxed
    requires th == At(c, tr, m).threads[tr[m].t] && sc == At(c, tr, m).scFence && ThreadOk(c.threads, th)
    requires ThreadRep(c, tr, m, th, tr[m].t) && Rep(c, tr, m, sc, ScOps(tr, m)) && ReadsPast(tr, m)
    requires Within(th.acqFence, At(c, tr, m).threads) && Within(th.relFence, At(c, tr, m).threads)
             && Within(sc, At(c, tr, m).threads)
    requires Fenced(th, tr[m].mo, sc) == At(c, tr, m + 1).threads[tr[m].t]
    ensures ThreadRep(c, tr, m + 1, Fenced(th, tr[m].mo, sc), tr[m].t)
    ensures Rep(c, tr, m + 1, Fenced(th, tr[m].mo, sc).clock, {m})
  {
    hide Apply, Enabled;
    var t := tr[m].t;
    var th' := Fenced(th, tr[m].mo, sc);
    FenceClocksKeep(c, tr, m, th, t);
    if tr[m].mo == Release {
      PlainClock(c, tr, m, th.clock, th.clock);
    } else {
      BelowPredsFence(tr, m);
      if tr[m].mo == SeqCst {
        RepMax(c, tr, m, th.acqFence, PendingOps(tr, m, t), sc, ScOps(tr, m));
        assert ThreadOps(tr, m, t) + PendingOps(tr, m, t) + ScOps(tr, m)
            == ThreadOps(tr, m, t) + (PendingOps(tr, m, t) + ScOps(tr, m));
        assert th'.clock == Max(th.clock, Max(th.acqFence, sc));
        MergingClock(c, tr, m, th.clock, Max(th.acqFence, sc), th'.clock, PendingOps(tr, m, t) + ScOps(tr, m));
      } else {
        assert ThreadOps(tr, m, t) + PendingOps(tr, m, t) + {} == ThreadOps(tr, m, t) + PendingOps(tr, m, t);
        MergingClock(c, tr, m, th.clock, th.acqFence, th'.clock, PendingOps(tr, m, t));
      }
    }
    if Releases(tr[m].mo) {
      ReleaseClock(c, tr, m, th'.clock);
    }
  }

  lemma GlobalEffect(c: Config, tr: Trace, m: nat)
    requires Run(c, tr, m + 1) && tr[m].GlobalFence?
    ensures At(c, tr, m + 1) == ApplyGlobalFence(c, At(c, tr, m))
  {
  }

  /** Everything happens before the global fence, and every timestamp is below its clock. */
  lemma GlobalClock(c: Config, tr: Trace, m: nat, t: nat, clock: Clock)
    requires Run(c, tr, m) && m < |tr| && tr[m].GlobalFence? && |clock| == c.threads
    requires forall u :: 0 <= u < c.threads ==> clock[u] >= Own(c, tr, m, u)
    ensures Rep(c, tr, m + 1, clock, ThreadOps(tr, m + 1, t))
  {
    hide Apply, Enabled, Own;
    assert ThreadOps(tr, m + 1, t) == ThreadOps(tr, m, t) + {m};
    assert forall j :: j in ThreadOps(tr, m, t) ==> Edge(tr, j, m);
    LastAbsorbs(tr, m, ThreadOps(tr, m, t));
    forall i | 0 <= i < m + 1 && Acts(c, tr, i)
      ensures clock[tr[i].t] >= Stamp(c, tr, i) && i in Past(tr, m)
    {
      StampWithin(c, tr, m, i);
      assert Edge(tr, i, m) && HB(tr, i, m);
    }
    forall i | 0 <= i < m + 1 && Owned(c, tr, i)
      ensures Leq(Known(c, tr, i), clock)
    {
      forall u | 0 <= u < c.threads
        ensures Known(c, tr, i)[u] <= clock[u]
      {
        ClockWithin(c, tr, i + 1, m, tr[i].t, u);
      }
    }
    RepIntro(c, tr, m + 1, clock, ThreadOps(tr, m + 1, t), Past(tr, m));
  }

  lemma GlobalStep(c: Config, tr: Trace, m: nat, t: nat)
    requires Run(c, tr, m + 1) && tr[m].GlobalFence? && t < c.threads && ReadsPast(tr, m)
    requires ThreadRep(c, tr, m, At(c, tr, m).threads[t], t) && Bounded(c, At(c, tr, m))
    ensures ThreadRep(c, tr, m + 1, At(c, tr, m + 1).threads[t], t)
  {
    GlobalEffect(c, tr, m);
    hide Apply, Enabled, Rep;
    FenceClocksKeep(c, tr, m, At(c, tr, m).threads[t], t);
    GlobalClock(c, tr, m, t, At(c, tr, m + 1).threads[t].clock);
  }

  lemma ThreadStep(c: Config, tr: Trace, m: nat, t: nat)
    requires Run(c, tr, m + 1) && t < c.threads && Inv(c, tr, m) && Bounded(c, At(c, tr, m))
    ensures ThreadRep(c, tr, m + 1, At(c, tr, m + 1).threads[t], t)
  {
    var s := At(c, tr, m);
    var th := s.threads[t];
    assert ThreadRep(c, tr, m, th, t);
    if tr[m].GlobalFence? {
      GlobalStep(c, tr, m, t);
    } else if tr[m].t != t {
      assert Legal(c, tr, m);
      OwnStep(c, s, tr[m]);
      OtherThread(c, tr, m, th, t);
    } else {
      ActingThread(c, tr, m, th);
    }
  }

  lemma ActingThread(c: Config, tr: Trace, m: nat, th: Thread)
    requires Run(c, tr, m + 1) && !tr[m].GlobalFence? && tr[m].t < c.threads && Inv(c, tr, m)
             && Bounded(c, At(c, tr, m))
    requires th == At(c, tr, m).threads[tr[m].t] && ThreadRep(c, tr, m, th, tr[m].t)
    ensures ThreadRep(c, tr, m + 1, At(c, tr, m + 1).threads[tr[m].t], tr[m].t)
    ensures SyncPlain(tr[m]) || tr[m].Fence? ==> Rep(c, tr, m + 1, At(c, tr, m + 1).threads[tr[m].t].clock, {m})
  {
    hide Rep, Bounded;
    var s, e := At(c, tr, m), tr[m];
    var t := e.t;
    assert Legal(c, tr, m);
    BoundedParts(c, s, e);
    if e.Load? {
      LoadStep(c, tr, m, th, s.atomics[e.a][e.k]);
    } else if e.Fence? {
      FenceStep(c, tr, m, th, s.scFence);
    } else {
      FenceClocksKeep(c, tr, m, th, t);
      if e.SyncAcquire? || e.SyncAcqRel? {
        PredsSync(tr, m);
        MergingClock(c, tr, m, th.clock, s.syncs[e.s], Max(Tick(th.clock, t), s.syncs[e.s]), SyncOps(tr, m, e.s));
      } else {
        PlainClock(c, tr, m, th.clock, if Stamped(e) then Tick(th.clock, t) else th.clock);
      }
    }
  }

  predicate SyncPlain(e: Event) {
    e.VarLoad? || e.VarStore? || e.SyncAcquire? || e.SyncRelease? || e.SyncAcqRel? || e.Store?
  }

  /** The clocks a step may merge, all within what their subjects have done. */
  lemma BoundedParts(c: Config, s: State, e: Event)
    requires Typed(c, s) && Bounded(c, s) && Enabled(c, s, e) && !e.GlobalFence?
    ensures Within(s.threads[e.t].clock, s.threads) && Within(s.threads[e.t].acqFence, s.threads)
            && Within(s.threads[e.t].relFence, s.threads)
    ensures Within(s.scFence, s.threads)
    ensures (e.SyncAcquire? || e.SyncAcqRel? || e.SyncRelease?) ==> Within(s.syncs[e.s], s.threads)
    ensures e.Load? ==> Within(s.atomics[e.a][e.k].order, s.threads)
    ensures e.Store? ==> forall k :: 0 <= k < |s.atomics[e.a]| ==> Within(s.atomics[e.a][k].order, s.threads)
  {
  }

  // ---- sync variables and the seq_cst fence clock

  /** What a step does outside the thread clocks. */
  lemma Effects(c: Config, s: State, e: Event)
    requires Typed(c, s) && Enabled(c, s, e)
    ensures var r := Apply(c, s, e);
            && (forall i :: 0 <= i < c.syncs ==>
                 r.syncs[i] == if ReleasesSync(e, i) then Max(s.syncs[i], r.threads[e.t].clock) else s.syncs[i])
            && r.scFence == (if ScFence(e) then r.threads[e.t].clock else s.scFence)
            && (forall a :: 0 <= a < c.atomics ==>
                 r.atomics[a] ==
                 if e.Load? && e.a == a
                 then s.atomics[a][e.k := MarkSeen(s.atomics[a][e.k], e.t, s.threads[e.t].clock[e.t] + 1)]
                 else if e.Store? && e.a == a
                 then s.atomics[a] + [StoreRecord(s.threads[e.t], e.t, s.atomics[a], e.mo, e.rmw, e.value)]
                 else s.atomics[a])
  {
  }

  lemma SyncOpsStep(tr: Trace, m: nat, i: nat)
    requires m < |tr|
    ensures forall j :: j in SyncOps(tr, m, i) ==> j < m
    ensures SyncOps(tr, m + 1, i) == SyncOps(tr, m, i) + if ReleasesSync(tr[m], i) then {m} else {}
  {
  }

  lemma SyncGrows(c: Config, tr: Trace, m: nat, i: nat, order: Clock, own: Clock)
    requires m < |tr| && Rep(c, tr, m, order, SyncOps(tr, m, i)) && Within(order, At(c, tr, m).threads)
    requires ReleasesSync(tr[m], i) ==> Rep(c, tr, m + 1, own, {m}) && |order| == |own|
    ensures Rep(c, tr, m + 1, if ReleasesSync(tr[m], i) then Max(order, own) else order, SyncOps(tr, m + 1, i))
  {
    hide *;
    SyncOpsStep(tr, m, i);
    RepKeep(c, tr, m, order, SyncOps(tr, m, i));
    if ReleasesSync(tr[m], i) {
      RepMax(c, tr, m + 1, order, SyncOps(tr, m, i), own, {m});
    } else {
      assert SyncOps(tr, m, i) + {} == SyncOps(tr, m, i);
    }
  }

  lemma SyncStep(c: Config, tr: Trace, m: nat, i: nat)
    requires Run(c, tr, m + 1) && i < c.syncs && Inv(c, tr, m) && Bounded(c, At(c, tr, m))
    ensures Rep(c, tr, m + 1, At(c, tr, m + 1).syncs[i], SyncOps(tr, m + 1, i))
  {
    var s, s' := At(c, tr, m), At(c, tr, m + 1);
    assert Rep(c, tr, m, s.syncs[i], SyncOps(tr, m, i)) && Within(s.syncs[i], s.threads);
    assert Legal(c, tr, m);
    Effects(c, s, tr[m]);
    hide Rep, Apply, Enabled, Bounded;
    if ReleasesSync(tr[m], i) {
      ReleaserClock(c, tr, m);
      hide Inv;
      SyncGrows(c, tr, m, i, s.syncs[i], s'.threads[tr[m].t].clock);
    } else {
      hide Inv;
      SyncGrows(c, tr, m, i, s.syncs[i], []);
    }
  }

  /** The acting thread's new clock stands for its latest operation. */
  lemma ReleaserClock(c: Config, tr: Trace, m: nat)
    requires Run(c, tr, m + 1) && Inv(c, tr, m) && Bounded(c, At(c, tr, m))
    requires tr[m].SyncRelease? || tr[m].SyncAcqRel? || tr[m].Fence?
    ensures tr[m].t < c.threads
    ensures Rep(c, tr, m + 1, At(c, tr, m + 1).threads[tr[m].t].clock, {m})
  {
    hide Rep, Apply, ThreadRep;
    assert Legal(c, tr, m);
    assert tr[m].t < c.threads;
    hide Enabled;
    assert ThreadRep(c, tr, m, At(c, tr, m).threads[tr[m].t], tr[m].t);
    ActingThread(c, tr, m, At(c, tr, m).threads[tr[m].t]);
  }

  lemma ScStep(c: Config, tr: Trace, m: nat)
    requires Run(c, tr, m + 1) && Inv(c, tr, m) && Bounded(c, At(c, tr, m))
    ensures Rep(c, tr, m + 1, At(c, tr, m + 1).scFence, ScOps(tr, m + 1))
  {
    var s, e := At(c, tr, m), tr[m];
    assert Legal(c, tr, m);
    Effects(c, s, e);
    ScOpsStep(tr, m);
    hide Rep, Apply, Enabled, ThreadRep, ScOps;
    assert Rep(c, tr, m, s.scFence, ScOps(tr, m)) && Within(s.scFence, s.threads);
    if ScFence(e) {
      ReleaserClock(c, tr, m);
      RepSame(c, tr, m + 1, At(c, tr, m + 1).scFence, {m}, ScOps(tr, m + 1));
    } else {
      RepKeep(c, tr, m, s.scFence, ScOps(tr, m));
    }
  }

  lemma ScOpsStep(tr: Trace, m: nat)
    requires m < |tr|
    ensures forall j :: j in ScOps(tr, m) ==> j < m
    ensures !ScFence(tr[m]) ==> ScOps(tr, m + 1) == ScOps(tr, m)
    ensures ScFence(tr[m]) ==> Below(tr, ScOps(tr, m + 1)) == Below(tr, {m})
  {
    if ScFence(tr[m]) {
      assert ScOps(tr, m + 1) == ScOps(tr, m) + {m};
      LastAbsorbs(tr, m, ScOps(tr, m));
      BelowOne(tr, m);
    } else {
      assert ScOps(tr, m + 1) == ScOps(tr, m);
    }
  }

  lemma RepSame(c: Config, tr: Trace, m: nat, clock: Clock, p: set<nat>, q: set<nat>)
    requires Rep(c, tr, m, clock, p) && Below(tr, p) == Below(tr, q)
    ensures Rep(c, tr, m, clock, q)
  {
  }

  // ---- atomic histories

  lemma StoreTicks(c: Config, tr: Trace, m: nat)
    requires Run(c, tr, m + 1) && tr[m].Store? && tr[m].t < c.threads
    ensures Owned(c, tr, m) && Known(c, tr, m) == Tick(At(c, tr, m).threads[tr[m].t].clock, tr[m].t)
  {
    assert Legal(c, tr, m);
    hide StoreRecord;
  }

  /** The clock a store publishes stands for its heads: itself, or its thread's release fences. */
  lemma PublishedRep(c: Config, tr: Trace, m: nat, th: Thread)
    requires Run(c, tr, m + 1) && tr[m].Store? && tr[m].t < c.threads && ThreadOk(c.threads, th)
    requires th == At(c, tr, m).threads[tr[m].t] && ThreadRep(c, tr, m, th, tr[m].t)
    requires Within(th.relFence, At(c, tr, m).threads)
    ensures Rep(c, tr, m + 1, Published(th, tr[m].t, tr[m].mo), set h | 0 <= h < |tr| && Head(tr, h, m))
  {
    var t := tr[m].t;
    var heads := set h | 0 <= h < |tr| && Head(tr, h, m);
    if Releases(tr[m].mo) {
      assert heads == ReleaseOps(tr, m, t) + {m};
      assert forall j :: j in ReleaseOps(tr, m, t) ==> Edge(tr, j, m);
      hide Apply, Enabled, Rep;
      LastAbsorbs(tr, m, ReleaseOps(tr, m, t));
      BelowOne(tr, m);
      StoreTicks(c, tr, m);
      PlainClock(c, tr, m, th.clock, Tick(th.clock, t));
      RepSame(c, tr, m + 1, Tick(th.clock, t), {m}, heads);
    } else {
      assert heads == ReleaseOps(tr, m, t);
      assert forall j :: j in ReleaseOps(tr, m, t) ==> j < m;
      hide Apply, Enabled, Rep;
      RepKeep(c, tr, m, th.relFence, ReleaseOps(tr, m, t));
    }
  }

  lemma RecordKeep(c: Config, tr: Trace, m: nat, r: Record, seen: seq<Seen>, a: nat, k: nat)
    requires m < |tr| && RecordRep(c, tr, m, r, a, k) && Within(r.order, At(c, tr, m).threads)
    ensures RecordRep(c, tr, m + 1, r.(seen := seen), a, k)
  {
    forall h | h in Heads(tr, a, k)
      ensures h < m
    {
      HeadsBefore(tr, a, k, h);
    }
    hide Heads, Apply, Enabled;
    RepKeep(c, tr, m, r.order, Heads(tr, a, k));
  }

  /** The record a store appends, given what its order clock stands for. */
  lemma NewRecordRep(c: Config, tr: Trace, m: nat, th: Thread, prior: seq<Record>)
    requires m < |tr| && Acts(c, tr, m) && tr[m].Store? && ThreadOk(c.threads, th)
             && th.clock[tr[m].t] + 1 == Stamp(c, tr, m)
    requires |prior| < |Mo(tr, tr[m].a)| && Mo(tr, tr[m].a)[|prior|] == m
    requires |prior| > 0 ==>
               |prior[|prior| - 1].order| == c.threads
                 && prior[|prior| - 1].writer == tr[Mo(tr, tr[m].a)[|prior| - 1]].t
    requires var last := if |prior| > 0 then prior[|prior| - 1].order else Published(th, tr[m].t, tr[m].mo);
             var mine := Published(th, tr[m].t, tr[m].mo);
             Rep(c, tr, m + 1, if Continues(tr, tr[m].a, |prior|) then Max(last, mine) else mine,
                 Heads(tr, tr[m].a, |prior|))
    ensures RecordRep(c, tr, m + 1, StoreRecord(th, tr[m].t, prior, tr[m].mo, tr[m].rmw, tr[m].value), tr[m].a, |prior|)
  {
    hide Rep, Stamp, Heads, Mo, Published;
  }

  lemma NewRecord(c: Config, tr: Trace, m: nat, th: Thread, prior: seq<Record>)
    requires Run(c, tr, m + 1) && tr[m].Store? && tr[m].t < c.threads && ThreadOk(c.threads, th)
    requires th == At(c, tr, m).threads[tr[m].t] && ThreadRep(c, tr, m, th, tr[m].t)
    requires HistoryRep(c, tr, m, prior, tr[m].a)
    requires Within(th.relFence, At(c, tr, m).threads)
    requires forall k :: 0 <= k < |prior| ==>
               RecordOk(c.threads, prior[k]) && Within(prior[k].order, At(c, tr, m).threads)
    ensures RecordRep(c, tr, m + 1, StoreRecord(th, tr[m].t, prior, tr[m].mo, tr[m].rmw, tr[m].value), tr[m].a, |prior|)
  {
    hide At, Enabled, Rep, Heads, Within, ThreadRep, RecordRep, Mo, Published;
    var t, a, k := tr[m].t, tr[m].a, |prior|;
    StorePosition(tr, m);
    PublishedRep(c, tr, m, th);
    var mine := Published(th, t, tr[m].mo);
    if k > 0 {
      LastRecord(c, tr, m, prior[k - 1], a, k - 1);
      NewOrder(c, tr, m, a, k, prior[k - 1].order, mine);
    } else {
      NewOrder(c, tr, m, a, k, mine, mine);
    }
    NewRecordRep(c, tr, m, th, prior);
  }

  lemma LastRecord(c: Config, tr: Trace, m: nat, last: Record, a: nat, k: nat)
    requires m < |tr| && RecordRep(c, tr, m, last, a, k) && Within(last.order, At(c, tr, m).threads)
    ensures k < |Mo(tr, a)| && last.writer == tr[Mo(tr, a)[k]].t && Rep(c, tr, m + 1, last.order, Heads(tr, a, k))
  {
    hide At, Rep, Heads, Mo;
    RecordKeep(c, tr, m, last, last.seen, a, k);
  }

  lemma NewOrder(c: Config, tr: Trace, m: nat, a: nat, k: nat, last: Clock, mine: Clock)
    requires m < |tr| && k < |Mo(tr, a)| && Mo(tr, a)[k] == m
    requires Rep(c, tr, m + 1, mine, set h | 0 <= h < |tr| && Head(tr, h, m))
    requires k > 0 ==> Rep(c, tr, m + 1, last, Heads(tr, a, k - 1))
    ensures Rep(c, tr, m + 1, if Continues(tr, a, k) then Max(last, mine) else mine, Heads(tr, a, k))
  {
    var heads := set h | 0 <= h < |tr| && Head(tr, h, m);
    HeadsStep(tr, a, k);
    hide Rep, Heads;
    if Continues(tr, a, k) {
      RepMax(c, tr, m + 1, last, Heads(tr, a, k - 1), mine, heads);
      assert Heads(tr, a, k - 1) + heads == heads + Heads(tr, a, k - 1);
    } else {
      assert heads + {} == heads;
    }
  }

  lemma HistoryGrows(c: Config, tr: Trace, m: nat, a: nat, recs: seq<Record>, after: seq<Record>)
    requires m < |tr| && HistoryRep(c, tr, m, recs, a)
    requires |recs| <= |after| && forall k :: 0 <= k < |recs| ==> after[k] == recs[k].(seen := after[k].seen)
    requires forall k :: 0 <= k < |recs| ==> Within(recs[k].order, At(c, tr, m).threads)
    requires if tr[m].Store? && tr[m].a == a
             then |after| == |recs| + 1 && RecordRep(c, tr, m + 1, after[|recs|], a, |recs|) else |after| == |recs|
    ensures HistoryRep(c, tr, m + 1, after, a)
  {
    hide RecordRep, Apply, Enabled;
    forall k | 0 <= k < |recs|
      ensures RecordRep(c, tr, m + 1, after[k], a, k)
    {
      assert RecordRep(c, tr, m, recs[k], a, k);
      RecordKeep(c, tr, m, recs[k], after[k].seen, a, k);
    }
  }

  lemma InRangeOf(c: Config, s: State, e: Event)
    requires Typed(c, s) && Enabled(c, s, e)
    ensures InRange(c, e)
    ensures e.Load? ==> e.k < |s.atomics[e.a]|
  {
  }

  lemma StoreAppends(c: Config, tr: Trace, m: nat)
    requires Run(c, tr, m + 1) && tr[m].Store? && tr[m].t < c.threads && tr[m].a < c.atomics && Inv(c, tr, m)
             && Bounded(c, At(c, tr, m))
    ensures var s := At(c, tr, m);
            RecordRep(c, tr, m + 1, StoreRecord(s.threads[tr[m].t], tr[m].t, s.atomics[tr[m].a], tr[m].mo, tr[m].rmw,
              tr[m].value),
                      tr[m].a, |s.atomics[tr[m].a]|)
  {
    hide Apply, Enabled, HistoryRep, ThreadRep, Within, Rep;
    var s, e := At(c, tr, m), tr[m];
    assert ThreadRep(c, tr, m, s.threads[e.t], e.t);
    assert Within(s.threads[e.t].relFence, s.threads);
    assert forall k :: 0 <= k < |s.atomics[e.a]| ==>
        RecordOk(c.threads, s.atomics[e.a][k]) && Within(s.atomics[e.a][k].order, s.threads);
    NewRecord(c, tr, m, s.threads[e.t], s.atomics[e.a]);
  }

  lemma HistoryStep(c: Config, tr: Trace, m: nat, a: nat)
    requires Run(c, tr, m + 1) && a < c.atomics && Inv(c, tr, m) && Bounded(c, At(c, tr, m))
    ensures HistoryRep(c, tr, m + 1, At(c, tr, m + 1).atomics[a], a)
  {
    hide Apply, Enabled, HistoryRep, ThreadRep, Within, Rep, RecordRep;
    var s, e := At(c, tr, m), tr[m];
    var recs, after := s.atomics[a], At(c, tr, m + 1).atomics[a];
    assert HistoryRep(c, tr, m, recs, a);
    assert forall k :: 0 <= k < |recs| ==> Within(recs[k].order, s.threads);
    assert Legal(c, tr, m);
    InRangeOf(c, s, e);
    Effects(c, s, e);
    if e.Store? {
      StoreAppends(c, tr, m);
    }
    HistoryGrows(c, tr, m, a, recs, after);
  }

  lemma ReadPosition(c: Config, tr: Trace, m: nat, a: nat, k: nat)
    requires m <= |tr| && Inv(c, tr, m) && a < c.atomics && k < |At(c, tr, m).atomics[a]|
    ensures k < |Mo(tr, a)| && Mo(tr, a)[k] < m
  {
    hide Rep, Apply, Enabled, ThreadRep;
    assert HistoryRep(c, tr, m, At(c, tr, m).atomics[a], a);
    assert RecordRep(c, tr, m, At(c, tr, m).atomics[a][k], a, k);
  }

  lemma ReadsStep(c: Config, tr: Trace, m: nat)
    requires Run(c, tr, m + 1) && Inv(c, tr, m)
    ensures ReadsPast(tr, m + 1)
  {
    hide Apply, Enabled, HistoryRep, ThreadRep, Rep;
    var e := tr[m];
    assert Legal(c, tr, m);
    InRangeOf(c, At(c, tr, m), e);
    if e.Load? {
      ReadPosition(c, tr, m, e.a, e.k);
    }
  }

  lemma InvStep(c: Config, tr: Trace, m: nat)
    requires Run(c, tr, m + 1) && Inv(c, tr, m)
    ensures Inv(c, tr, m + 1)
  {
    BoundedAlways(c, tr, m);
    hide Apply, Enabled, Rep, ThreadRep, HistoryRep;
    var s := At(c, tr, m + 1);
    forall t | 0 <= t < c.threads
      ensures ThreadRep(c, tr, m + 1, s.threads[t], t)
    {
      ThreadStep(c, tr, m, t);
    }
    forall i | 0 <= i < c.syncs
      ensures Rep(c, tr, m + 1, s.syncs[i], SyncOps(tr, m + 1, i))
    {
      SyncStep(c, tr, m, i);
    }
    forall a | 0 <= a < c.atomics
      ensures HistoryRep(c, tr, m + 1, s.atomics[a], a)
    {
      HistoryStep(c, tr, m, a);
    }
    ScStep(c, tr, m);
    ReadsStep(c, tr, m);
  }

  lemma InvInit(c: Config, tr: Trace)
    ensures Inv(c, tr, 0)
  {
  }

  lemma {:induction false} InvAlways(c: Config, tr: Trace, m: nat)
    requires Run(c, tr, m)
    ensures Inv(c, tr, m)
  {
    hide Inv;
    if m == 0 {
      InvInit(c, tr);
    } else {
      InvAlways(c, tr, m - 1);
      InvStep(c, tr, m - 1);
    }
  }
}
