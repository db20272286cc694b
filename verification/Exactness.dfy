/** Clocks represent happens-before exactly: in every run, a clock has reached the
    timestamp of an operation if and only if that operation happens before the point
    the clock stands for. */
module Exactness {
  import opened Clocks
  import opened Memory
  import opened HappensBefore

  /** Operations that are given a timestamp. */
  predicate Stamped(e: Event) {
    e.VarLoad? || e.VarStore? || e.SyncAcquire? || e.SyncRelease? || e.SyncAcqRel? || e.Load? || e.Store?
  }

  predicate Acts(c: Config, tr: Trace, i: nat) {
    i < |tr| && Stamped(tr[i]) && tr[i].t < c.threads
  }

  function Own(c: Config, tr: Trace, m: nat, t: nat): nat
    requires m <= |tr| && t < c.threads
  {
    At(c, tr, m).threads[t].clock[t]
  }

  /** The clock of thread t after the first m operations. */
  function ClockAt(c: Config, tr: Trace, m: nat, t: nat): (clock: Clock)
    requires m <= |tr| && t < c.threads
    ensures |clock| == c.threads
  {
    At(c, tr, m).threads[t].clock
  }

  /** The timestamp the detector gives to operation i. */
  function Stamp(c: Config, tr: Trace, i: nat): nat
    requires Acts(c, tr, i)
  {
    Own(c, tr, i, tr[i].t) + 1
  }

  // ---- no clock runs ahead of the thread it speaks about

  predicate Within(clock: Clock, threads: seq<Thread>)
  {
    |clock| == |threads| && forall u :: 0 <= u < |threads| ==> u < |threads[u].clock| && clock[u] <= threads[u].clock[u]
  }

  predicate Bounded(c: Config, s: State)
    requires Typed(c, s)
  {
    && (forall t :: 0 <= t < c.threads ==>
         Within(s.threads[t].clock, s.threads) && Within(s.threads[t].acqFence, s.threads)
         && Within(s.threads[t].relFence, s.threads) && s.threads[t].lastYield <= s.threads[t].clock[t])
    && (forall i :: 0 <= i < c.syncs ==> Within(s.syncs[i], s.threads))
    && (forall a, k :: 0 <= a < c.atomics && 0 <= k < |s.atomics[a]| ==> Within(s.atomics[a][k].order, s.threads))
    && Within(s.scFence, s.threads)
  }

  /** The own entry of a thread never decreases. */
  predicate Advances(p: seq<Thread>, q: seq<Thread>)
  {
    |p| == |q| && forall u :: 0 <= u < |p| ==> u < |p[u].clock| && u < |q[u].clock| && p[u].clock[u] <= q[u].clock[u]
  }

  lemma OnlyTheActor(c: Config, s: State, e: Event)
    requires Typed(c, s) && Enabled(c, s, e) && !e.GlobalFence?
    ensures Apply(c, s, e).threads == s.threads[e.t := Apply(c, s, e).threads[e.t]]
  {
    hide LoadThread, StoreRecord, MarkSeen, CanRead, LoadPasses, StorePasses;
  }

  /** A merged clock never speaks of the thread itself with a later timestamp. */
  lemma OwnEntry(c: Config, s: State, e: Event)
    requires Typed(c, s) && Enabled(c, s, e) && !e.GlobalFence?
    requires Within(s.threads[e.t].acqFence, s.threads) && Within(s.scFence, s.threads)
    requires (e.SyncAcquire? || e.SyncAcqRel?) ==> Within(s.syncs[e.s], s.threads)
    requires e.Load? ==> e.k < |s.atomics[e.a]| && Within(s.atomics[e.a][e.k].order, s.threads)
    ensures Apply(c, s, e).threads[e.t].clock[e.t] == s.threads[e.t].clock[e.t] + if Stamped(e) then 1 else 0
  {
    hide StoreRecord, MarkSeen, CanRead, LoadPasses, StorePasses;
  }

  lemma OwnGlobal(c: Config, s: State)
    requires Typed(c, s)
    ensures Advances(s.threads, ApplyGlobalFence(c, s).threads)
  {
  }

  /** Own entries after one step: unchanged, or one more for a stamped operation. */
  lemma OwnStep(c: Config, s: State, e: Event)
    requires Typed(c, s) && Bounded(c, s) && Enabled(c, s, e)
    ensures var r := Apply(c, s, e);
            && Advances(s.threads, r.threads)
            && (Stamped(e) ==> r.threads[e.t].clock[e.t] == s.threads[e.t].clock[e.t] + 1)
            && (!e.GlobalFence? ==> forall u :: 0 <= u < c.threads && u != e.t ==> r.threads[u] == s.threads[u])
  {
    if e.GlobalFence? {
      hide ApplyGlobalFence;
      OwnGlobal(c, s);
    } else {
      if e.Load? {
        assert Within(s.atomics[e.a][e.k].order, s.threads);
      }
      hide Apply, Within;
      OnlyTheActor(c, s, e);
      OwnEntry(c, s, e);
    }
  }

  lemma BoundedPutThread(c: Config, s: State, t: nat, th: Thread)
    requires Typed(c, s) && Bounded(c, s) && t < c.threads && ThreadOk(c.threads, th)
    requires th.clock[t] >= s.threads[t].clock[t] && th.lastYield <= th.clock[t]
    requires Within(th.clock, s.threads[t := th]) && Within(th.acqFence, s.threads[t := th])
             && Within(th.relFence, s.threads[t := th])
    ensures Bounded(c, PutThread(c, s, t, th))
  {
    var r := PutThread(c, s, t, th);
    assert Advances(s.threads, r.threads);
    forall u | 0 <= u < c.threads && u != t
      ensures Within(r.threads[u].clock, r.threads) && Within(r.threads[u].acqFence, r.threads)
              && Within(r.threads[u].relFence, r.threads) && r.threads[u].lastYield <= r.threads[u].clock[u]
    {
      assert Within(s.threads[u].clock, s.threads);
    }
    forall i | 0 <= i < c.syncs
      ensures Within(r.syncs[i], r.threads)
    {
      assert Within(s.syncs[i], s.threads);
    }
    forall a, k | 0 <= a < c.atomics && 0 <= k < |r.atomics[a]|
      ensures Within(r.atomics[a][k].order, r.threads)
    {
      assert Within(s.atomics[a][k].order, s.threads);
    }
    assert Within(s.scFence, s.threads);
  }

  lemma BoundedPutClock(c: Config, s: State, t: nat, clock: Clock)
    requires Typed(c, s) && Bounded(c, s) && t < c.threads == |clock|
    requires clock[t] >= s.threads[t].clock[t]
    requires forall u :: 0 <= u < c.threads && u != t ==> clock[u] <= s.threads[u].clock[u]
    ensures Bounded(c, PutClock(c, s, t, clock))
  {
    BoundedPutThread(c, s, t, s.threads[t].(clock := clock));
  }

  lemma BoundedPutRecords(c: Config, s: State, a: nat, recs: seq<Record>)
    requires Typed(c, s) && Bounded(c, s) && a < c.atomics
    requires forall k :: 0 <= k < |recs| ==> RecordOk(c.threads, recs[k]) && Within(recs[k].order, s.threads)
    ensures Bounded(c, PutRecords(c, s, a, recs))
  {
    var r := PutRecords(c, s, a, recs);
    forall b, k | 0 <= b < c.atomics && 0 <= k < |r.atomics[b]|
      ensures Within(r.atomics[b][k].order, r.threads)
    {
      if b != a {
        assert Within(s.atomics[b][k].order, s.threads);
      }
    }
  }

  lemma BoundedFence(c: Config, s: State, t: nat, mo: Order)
    requires Typed(c, s) && Bounded(c, s) && t < c.threads
    ensures Bounded(c, ApplyFence(c, s, t, mo))
  {
    var th := s.threads[t];
    match mo
    case Relaxed =>
    case Acquire => BoundedPutThread(c, s, t, FenceAcquire(th));
    case Release => BoundedPutThread(c, s, t, FenceRelease(th));
    case AcqRel => BoundedPutThread(c, s, t, FenceRelease(FenceAcquire(th)));
    case SeqCst =>
      var th' := FenceSeqCst(th, s.scFence);
      BoundedPutThread(c, s, t, th');
  }

  lemma BoundedGlobalFence(c: Config, s: State)
    requires Typed(c, s) && Bounded(c, s)
    ensures Bounded(c, ApplyGlobalFence(c, s))
  {
    var r := ApplyGlobalFence(c, s);
    assert Advances(s.threads, r.threads);
    forall u | 0 <= u < c.threads
      ensures Within(r.threads[u].acqFence, r.threads)
              && Within(r.threads[u].relFence, r.threads) && r.threads[u].lastYield <= r.threads[u].clock[u]
    {
      assert Within(s.threads[u].acqFence, s.threads);
    }
    forall i | 0 <= i < c.syncs
      ensures Within(r.syncs[i], r.threads)
    {
      assert Within(s.syncs[i], s.threads);
    }
    forall a, k | 0 <= a < c.atomics && 0 <= k < |r.atomics[a]|
      ensures Within(r.atomics[a][k].order, r.threads)
    {
      assert Within(s.atomics[a][k].order, s.threads);
    }
    assert Within(s.scFence, s.threads);
  }

  /** A step of thread t on atomic a: its new clocks, then the new history. */
  lemma BoundedAccess(c: Config, s: State, t: nat, th: Thread, a: nat, recs: seq<Record>)
    requires Typed(c, s) && Bounded(c, s) && t < c.threads && a < c.atomics && ThreadOk(c.threads, th)
    requires th.clock[t] >= s.threads[t].clock[t] && th.lastYield <= th.clock[t]
    requires Within(th.clock, s.threads[t := th]) && Within(th.acqFence, s.threads[t := th])
             && Within(th.relFence, s.threads[t := th])
    requires forall k :: 0 <= k < |recs| ==> RecordOk(c.threads, recs[k]) && Within(recs[k].order, s.threads[t := th])
    ensures Bounded(c, PutRecords(c, PutThread(c, s, t, th), a, recs))
  {
    hide Bounded, Within;
    BoundedPutThread(c, s, t, th);
    BoundedPutRecords(c, PutThread(c, s, t, th), a, recs);
  }

  lemma BoundedLoad(c: Config, s: State, t: nat, a: nat, k: nat, mo: Order)
    requires Typed(c, s) && Bounded(c, s) && t < c.threads && a < c.atomics && k < |s.atomics[a]|
    ensures var r := s.atomics[a][k];
            Bounded(c, PutRecords(c, PutThread(c, s, t, LoadThread(s.threads[t], t, r, mo)), a,
                                  s.atomics[a][k := MarkSeen(r, t, s.threads[t].clock[t] + 1)]))
  {
    var th, recs := s.threads[t], s.atomics[a];
    var th' := LoadThread(th, t, recs[k], mo);
    var recs' := recs[k := MarkSeen(recs[k], t, th.clock[t] + 1)];
    assert Advances(s.threads, s.threads[t := th']);
    assert Within(recs[k].order, s.threads);
    forall j | 0 <= j < |recs'|
      ensures RecordOk(c.threads, recs'[j]) && Within(recs'[j].order, s.threads[t := th'])
    {
      assert Within(recs[j].order, s.threads);
    }
    hide Bounded, MarkSeen;
    BoundedAccess(c, s, t, th', a, recs');
  }

  lemma BoundedStore(c: Config, s: State, t: nat, a: nat, mo: Order, rmw: bool, value: int)
    requires Typed(c, s) && Bounded(c, s) && t < c.threads && a < c.atomics
    ensures Bounded(c, PutRecords(c, PutClock(c, s, t, Tick(s.threads[t].clock, t)), a,
                                  s.atomics[a] + [StoreRecord(s.threads[t], t, s.atomics[a], mo, rmw, value)]))
  {
    var th, recs := s.threads[t], s.atomics[a];
    var th' := th.(clock := Tick(th.clock, t));
    var r := StoreRecord(th, t, recs, mo, rmw, value);
    assert Advances(s.threads, s.threads[t := th']);
    assert Within(th.relFence, s.threads) && Within(th.clock, s.threads);
    assert |recs| > 0 ==> Within(recs[|recs| - 1].order, s.threads);
    assert Within(r.order, s.threads[t := th']);
    forall j | 0 <= j < |recs|
      ensures RecordOk(c.threads, recs[j]) && Within(recs[j].order, s.threads[t := th'])
    {
      assert Within(recs[j].order, s.threads);
    }
    hide Bounded, StoreRecord;
    BoundedAccess(c, s, t, th', a, recs + [r]);
  }

  lemma BoundedPutVar(c: Config, s: State, v: nat, d: Var)
    requires Typed(c, s) && Bounded(c, s) && v < c.vars && VarOk(c.threads, d)
    ensures Bounded(c, PutVar(c, s, v, d))
  {
    hide Within;
  }

  lemma BoundedPutSync(c: Config, s: State, i: nat, order: Clock)
    requires Typed(c, s) && Bounded(c, s) && i < c.syncs && |order| == c.threads && Within(order, s.threads)
    ensures Bounded(c, PutSync(c, s, i, order))
  {
    hide Within;
  }

  /** A step of thread t on sync variable i. */
  lemma BoundedSync(c: Config, s: State, t: nat, i: nat, own: Clock)
    requires Typed(c, s) && Bounded(c, s) && t < c.threads && i < c.syncs
    requires own == Tick(s.threads[t].clock, t) || own == Max(Tick(s.threads[t].clock, t), s.syncs[i])
    ensures Bounded(c, PutClock(c, s, t, own))
    ensures Bounded(c, PutSync(c, PutClock(c, s, t, own), i, Max(s.syncs[i], own)))
  {
    assert Within(s.syncs[i], s.threads) && Within(s.threads[t].clock, s.threads);
    BoundedPutClock(c, s, t, own);
    assert Within(Max(s.syncs[i], own), PutClock(c, s, t, own).threads);
    hide Bounded, Within;
    BoundedPutSync(c, PutClock(c, s, t, own), i, Max(s.syncs[i], own));
  }

  lemma BoundedTick(c: Config, s: State, t: nat)
    requires Typed(c, s) && Bounded(c, s) && t < c.threads
    ensures Bounded(c, PutClock(c, s, t, Tick(s.threads[t].clock, t)))
  {
    assert Within(s.threads[t].clock, s.threads);
    BoundedPutClock(c, s, t, Tick(s.threads[t].clock, t));
  }

  lemma BoundedYield(c: Config, s: State, t: nat)
    requires Typed(c, s) && Bounded(c, s) && t < c.threads
    ensures Bounded(c, PutThread(c, s, t, s.threads[t].(lastYield := s.threads[t].clock[t])))
  {
    BoundedPutThread(c, s, t, s.threads[t].(lastYield := s.threads[t].clock[t]));
  }

  lemma BoundedStep(c: Config, s: State, e: Event)
    requires Typed(c, s) && Bounded(c, s) && Enabled(c, s, e)
    ensures Bounded(c, Apply(c, s, e))
  {
    hide Bounded, PutThread, PutClock, PutVar, PutSync, PutRecords, LoadThread, StoreRecord, MarkSeen, ApplyFence,
         ApplyGlobalFence;
    match e
    case VarLoad(t, v) =>
      var own := Tick(s.threads[t].clock, t);
      BoundedTick(c, s, t);
      BoundedPutVar(c, PutClock(c, s, t, own), v, s.vars[v].(loads := s.vars[v].loads[t := own[t]]));
    case VarStore(t, v) =>
      var own := Tick(s.threads[t].clock, t);
      BoundedTick(c, s, t);
      BoundedPutVar(c, PutClock(c, s, t, own), v,
        s.vars[v].(stores := s.vars[v].stores[t := own[t]], initialized := true));
    case SyncAcquire(t, i) => BoundedSync(c, s, t, i, Max(Tick(s.threads[t].clock, t), s.syncs[i]));
    case SyncRelease(t, i) => BoundedSync(c, s, t, i, Tick(s.threads[t].clock, t));
    case SyncAcqRel(t, i) => BoundedSync(c, s, t, i, Max(Tick(s.threads[t].clock, t), s.syncs[i]));
    case Load(t, a, k, mo, _) => BoundedLoad(c, s, t, a, k, mo);
    case Store(t, a, mo, rmw, value) => BoundedStore(c, s, t, a, mo, rmw, value);
    case Fence(t, mo) => BoundedFence(c, s, t, mo);
    case Yield(t) => BoundedYield(c, s, t);
    case GlobalFence => BoundedGlobalFence(c, s);
  }

  lemma {:induction false} BoundedAlways(c: Config, tr: Trace, m: nat)
    requires Run(c, tr, m)
    ensures Bounded(c, At(c, tr, m))
  {
    hide Apply, Enabled;
    if m > 0 {
      BoundedAlways(c, tr, m - 1);
      assert Legal(c, tr, m - 1);
      hide Bounded;
      BoundedStep(c, At(c, tr, m - 1), tr[m - 1]);
    }
  }

  lemma OwnAdvances(c: Config, tr: Trace, m: nat, t: nat)
    requires Run(c, tr, m + 1) && t < c.threads
    ensures Own(c, tr, m, t) <= Own(c, tr, m + 1, t)
    ensures Acts(c, tr, m) && tr[m].t == t ==> Stamp(c, tr, m) == Own(c, tr, m + 1, t)
  {
    hide Apply, Enabled;
    BoundedAlways(c, tr, m);
    assert Legal(c, tr, m);
    OwnStep(c, At(c, tr, m), tr[m]);
    hide Bounded;
  }

  /** Timestamps already handed out are at most the thread's own entry. */
  lemma {:induction false} StampWithin(c: Config, tr: Trace, m: nat, i: nat)
    requires Run(c, tr, m) && i < m && Acts(c, tr, i)
    ensures Stamp(c, tr, i) <= Own(c, tr, m, tr[i].t)
    decreases m
  {
    hide Enabled, At, Own, Stamp;
    OwnAdvances(c, tr, m - 1, tr[i].t);
    if i < m - 1 {
      StampWithin(c, tr, m - 1, i);
    }
  }

  lemma {:induction false} OwnMonotone(c: Config, tr: Trace, i: nat, m: nat, u: nat)
    requires Run(c, tr, m) && i <= m && u < c.threads
    ensures Own(c, tr, i, u) <= Own(c, tr, m, u)
    decreases m
  {
    hide Enabled, At, Own;
    if i < m {
      OwnAdvances(c, tr, m - 1, u);
      OwnMonotone(c, tr, i, m - 1, u);
    }
  }

  /** No clock entry exceeds what the thread it speaks of has reached later. */
  lemma ClockWithin(c: Config, tr: Trace, i: nat, m: nat, t: nat, u: nat)
    requires Run(c, tr, m) && i <= m && t < c.threads && u < c.threads
    ensures ClockAt(c, tr, i, t)[u] <= Own(c, tr, m, u)
  {
    BoundedAlways(c, tr, i);
    OwnMonotone(c, tr, i, m, u);
    hide Apply, Enabled, At;
    assert Within(At(c, tr, i).threads[t].clock, At(c, tr, i).threads);
  }

  // ---- what a clock represents

  /** Entry by entry, a is at most b. */
  predicate Leq(a: Clock, b: Clock) {
    |a| == |b| && forall u :: 0 <= u < |a| ==> a[u] <= b[u]
  }

  predicate Owned(c: Config, tr: Trace, i: nat) {
    i < |tr| && !tr[i].GlobalFence? && tr[i].t < c.threads
  }

  /** The clock of operation i's thread right after it. */
  function Known(c: Config, tr: Trace, i: nat): (clock: Clock)
    requires Owned(c, tr, i)
    ensures |clock| == c.threads
  {
    ClockAt(c, tr, i + 1, tr[i].t)
  }

  /** The clock has reached exactly the timestamps of the operations at or below `ops`. */
  ghost predicate Exactly(c: Config, tr: Trace, m: nat, clock: Clock, ops: set<nat>) {
    forall i :: 0 <= i < m && Acts(c, tr, i) && |clock| == c.threads ==>
      (clock[tr[i].t] >= Stamp(c, tr, i) <==> i in Below(tr, ops))
  }

  /** The clock dominates, entry by entry, what was known right after each operation at or below `ops`. */
  ghost predicate Knows(c: Config, tr: Trace, m: nat, clock: Clock, ops: set<nat>) {
    forall i :: 0 <= i < m && Owned(c, tr, i) && i in Below(tr, ops) ==> Leq(Known(c, tr, i), clock)
  }

  /** What a clock stands for. */
  ghost predicate Rep(c: Config, tr: Trace, m: nat, clock: Clock, ops: set<nat>)
  {
    |clock| == c.threads && Exactly(c, tr, m, clock, ops) && Knows(c, tr, m, clock, ops)
  }

  lemma RepMax(c: Config, tr: Trace, m: nat, a: Clock, p: set<nat>, b: Clock, q: set<nat>)
    requires Rep(c, tr, m, a, p) && Rep(c, tr, m, b, q)
    ensures Rep(c, tr, m, Max(a, b), p + q)
  {
    BelowUnion(tr, p, q);
    hide Stamp, Below, Known, At;
    assert Exactly(c, tr, m, Max(a, b), p + q);
    assert Knows(c, tr, m, Max(a, b), p + q);
  }

  /** A clock that does not change keeps its meaning when operation m happens. */
  lemma RepKeep(c: Config, tr: Trace, m: nat, clock: Clock, ops: set<nat>)
    requires m < |tr| && Rep(c, tr, m, clock, ops)
    requires forall j :: j in ops ==> j < m
    requires Within(clock, At(c, tr, m).threads)
    ensures Rep(c, tr, m + 1, clock, ops)
  {
    assert Acts(c, tr, m) ==> clock[tr[m].t] < Stamp(c, tr, m);
    hide At, Own, Stamp, Exactly, Knows;
    BeforeOnly(tr, m, ops);
    KeepUnfold(c, tr, m, clock, ops);
  }

  lemma BeforeOnly(tr: Trace, m: nat, ops: set<nat>)
    requires forall j :: j in ops ==> j < m
    ensures m !in Below(tr, ops)
  {
  }

  lemma KeepUnfold(c: Config, tr: Trace, m: nat, clock: Clock, ops: set<nat>)
    requires m < |tr| && Rep(c, tr, m, clock, ops) && m !in Below(tr, ops)
    requires Acts(c, tr, m) ==> |clock| == c.threads && clock[tr[m].t] < Stamp(c, tr, m)
    ensures Rep(c, tr, m + 1, clock, ops)
  {
    hide At, Own, Stamp, Below, Known, Leq;
  }

  /** The clock of the thread that executes operation m. */
  lemma RepGrow(c: Config, tr: Trace, m: nat, merged: Clock, after: Clock, own: set<nat>, extra: set<nat>)
    requires Run(c, tr, m) && Owned(c, tr, m) && after == Known(c, tr, m)
    requires Rep(c, tr, m, merged, own + extra)
    requires Below(tr, Preds(tr, m)) == Below(tr, own + extra)
    requires forall u :: 0 <= u < c.threads && u != tr[m].t ==> after[u] == merged[u]
    requires merged[tr[m].t] == Own(c, tr, m, tr[m].t)
    requires after[tr[m].t] == merged[tr[m].t] + (if Stamped(tr[m]) then 1 else 0)
    ensures Rep(c, tr, m + 1, after, own + {m})
    ensures Rep(c, tr, m + 1, after, {m})
  {
    hide Enabled, At, Own, Known, Below, Past, Preds, Stamp, Exactly, Knows, Leq, Rep, Run;
    GrowBelow(tr, m, own, extra);
    RepSized(c, tr, m, merged, own + extra);
    forall i | 0 <= i < m + 1 && Acts(c, tr, i)
      ensures after[tr[i].t] >= Stamp(c, tr, i) <==> i in Past(tr, m)
    {
      GrowOne(c, tr, m, merged, after, own + extra, i);
    }
    forall i | 0 <= i < m + 1 && Owned(c, tr, i) && i in Past(tr, m)
      ensures Leq(Known(c, tr, i), after)
    {
      if i < m {
        KnowsOne(c, tr, m, merged, own + extra, i);
        LeqGrows(Known(c, tr, i), merged, after, tr[m].t);
      } else {
        LeqSelf(after);
      }
    }
    RepIntro(c, tr, m + 1, after, own + {m}, Past(tr, m));
    RepIntro(c, tr, m + 1, after, {m}, Past(tr, m));
  }

  lemma GrowBelow(tr: Trace, m: nat, own: set<nat>, extra: set<nat>)
    requires m < |tr| && Below(tr, Preds(tr, m)) == Below(tr, own + extra)
    ensures Below(tr, own + {m}) == Below(tr, {m}) == Past(tr, m) == {m} + Below(tr, own + extra)
  {
    BelowUnion(tr, own, {m});
    BelowUnion(tr, own, extra);
    BelowOne(tr, m);
    hide Below, Past, Preds;
  }

  lemma RepSized(c: Config, tr: Trace, m: nat, clock: Clock, ops: set<nat>)
    requires Rep(c, tr, m, clock, ops)
    ensures |clock| == c.threads
  {
  }

  lemma LeqSelf(a: Clock)
    ensures Leq(a, a)
  {
  }

  lemma LeqGrows(a: Clock, merged: Clock, after: Clock, t: nat)
    requires Leq(a, merged) && |merged| == |after| && t < |after| && merged[t] <= after[t]
    requires forall u :: 0 <= u < |after| && u != t ==> after[u] == merged[u]
    ensures Leq(a, after)
  {
  }

  lemma KnowsOne(c: Config, tr: Trace, m: nat, clock: Clock, ops: set<nat>, i: nat)
    requires Rep(c, tr, m, clock, ops) && i < m && Owned(c, tr, i) && i in Below(tr, ops)
    ensures Leq(Known(c, tr, i), clock)
  {
    hide Known, Below, Leq;
  }

  lemma RepIntro(c: Config, tr: Trace, m: nat, clock: Clock, ops: set<nat>, below: set<nat>)
    requires |clock| == c.threads && Below(tr, ops) == below
    requires forall i :: 0 <= i < m && Acts(c, tr, i) ==> (clock[tr[i].t] >= Stamp(c, tr, i) <==> i in below)
    requires forall i :: 0 <= i < m && Owned(c, tr, i) && i in below ==> Leq(Known(c, tr, i), clock)
    ensures Rep(c, tr, m, clock, ops)
  {
    hide Known, Below, Leq, Stamp;
  }

  lemma GrowOne(c: Config, tr: Trace, m: nat, merged: Clock, after: Clock, ops: set<nat>, i: nat)
    requires m < |tr| && Run(c, tr, m) && !tr[m].GlobalFence? && tr[m].t < c.threads && i <= m && Acts(c, tr, i)
    requires Rep(c, tr, m, merged, ops) && |after| == c.threads
    requires Past(tr, m) == {m} + Below(tr, ops)
    requires forall u :: 0 <= u < c.threads && u != tr[m].t ==> after[u] == merged[u]
    requires merged[tr[m].t] == Own(c, tr, m, tr[m].t)
    requires after[tr[m].t] == merged[tr[m].t] + (if Stamped(tr[m]) then 1 else 0)
    ensures after[tr[i].t] >= Stamp(c, tr, i) <==> i in Past(tr, m)
  {
    if i < m {
      assert merged[tr[i].t] >= Stamp(c, tr, i) <==> i in Below(tr, ops);
      StampWithin(c, tr, m, i);
      hide *;
    } else {
      assert Stamp(c, tr, m) == Own(c, tr, m, tr[m].t) + 1;
      hide *;
    }
  }
}
