/** Loads obey coherence (section 1.10, paragraphs 15 to 18, of ISO C++11), although only the
    last three records of an atomic are kept; and the records a load may return are exactly
    those that happens-before, the seq_cst rule and the yield rule leave. */
module Coherence {
  import opened Clocks
  import opened Memory
  import opened HappensBefore
  import opened Dependencies
  import opened Exactness
  import opened Represent
  import opened Races

  /** Operation i stores record k of atomic a, or reads it. */
  predicate Touches(tr: Trace, i: nat, a: nat, k: nat) {
    && i < |tr|
    && ((tr[i].Load? && tr[i].a == a && tr[i].k == k)
        || (tr[i].Store? && tr[i].a == a && k < |Mo(tr, a)| && Mo(tr, a)[k] == i))
  }

  predicate TouchesBy(c: Config, tr: Trace, i: nat, a: nat, k: nat, u: nat) {
    Touches(tr, i, a, k) && tr[i].t == u && Acts(c, tr, i)
  }

  /** first_seen_order_[u] is the timestamp of thread u's first touch of the record. */
  ghost predicate SeenRep(c: Config, tr: Trace, m: nat, s: Seen, a: nat, k: nat, u: nat) {
    match s
    case Never => forall i :: 0 <= i < m ==> !TouchesBy(c, tr, i, a, k, u)
    case SeenAt(ts) =>
      && (exists i :: 0 <= i < m && TouchesBy(c, tr, i, a, k, u) && Stamp(c, tr, i) == ts)
      && (forall i :: 0 <= i < m && TouchesBy(c, tr, i, a, k, u) ==> ts <= Stamp(c, tr, i))
  }

  ghost predicate RecordSeen(c: Config, tr: Trace, m: nat, r: Record, a: nat, k: nat) {
    |r.seen| == c.threads && forall u :: 0 <= u < c.threads ==> SeenRep(c, tr, m, r.seen[u], a, k, u)
  }

  ghost predicate HistorySeen(c: Config, tr: Trace, m: nat, recs: seq<Record>, a: nat) {
    forall k :: 0 <= k < |recs| ==> RecordSeen(c, tr, m, recs[k], a, k)
  }

  lemma SeenKeep(c: Config, tr: Trace, m: nat, s: Seen, a: nat, k: nat, u: nat)
    requires m < |tr| && SeenRep(c, tr, m, s, a, k, u) && !TouchesBy(c, tr, m, a, k, u)
    ensures SeenRep(c, tr, m + 1, s, a, k, u)
  {
    hide Stamp, Touches;
  }

  lemma SeenNew(c: Config, tr: Trace, m: nat, s: Seen, a: nat, k: nat, u: nat)
    requires Run(c, tr, m) && SeenRep(c, tr, m, s, a, k, u) && TouchesBy(c, tr, m, a, k, u)
    ensures SeenRep(c, tr, m + 1, if s == Never then SeenAt(Stamp(c, tr, m)) else s, a, k, u)
  {
    hide Apply, Enabled, Own, At;
    forall i | 0 <= i < m && TouchesBy(c, tr, i, a, k, u)
      ensures Stamp(c, tr, i) <= Stamp(c, tr, m)
    {
      StampWithin(c, tr, m, i);
    }
  }

  lemma MarkedRecord(c: Config, tr: Trace, m: nat, r: Record)
    requires Run(c, tr, m) && m < |tr| && tr[m].Load? && InRange(c, tr[m]) && RecordSeen(c, tr, m, r, tr[m].a, tr[m].k)
    ensures RecordSeen(c, tr, m + 1, MarkSeen(r, tr[m].t, Stamp(c, tr, m)), tr[m].a, tr[m].k)
  {
    hide Apply, Enabled, SeenRep, Stamp;
    var a, k, t := tr[m].a, tr[m].k, tr[m].t;
    var r' := MarkSeen(r, t, Stamp(c, tr, m));
    forall u | 0 <= u < c.threads
      ensures SeenRep(c, tr, m + 1, r'.seen[u], a, k, u)
    {
      if u == t {
        assert TouchesBy(c, tr, m, a, k, u);
        SeenNew(c, tr, m, r.seen[u], a, k, u);
      } else {
        SeenKeep(c, tr, m, r.seen[u], a, k, u);
      }
    }
  }

  lemma UntouchedRecord(c: Config, tr: Trace, m: nat, r: Record, a: nat, k: nat)
    requires m < |tr| && RecordSeen(c, tr, m, r, a, k) && !Touches(tr, m, a, k)
    ensures RecordSeen(c, tr, m + 1, r, a, k)
  {
    hide SeenRep;
    forall u | 0 <= u < c.threads
      ensures SeenRep(c, tr, m + 1, r.seen[u], a, k, u)
    {
      SeenKeep(c, tr, m, r.seen[u], a, k, u);
    }
  }

  lemma FreshRecord(c: Config, tr: Trace, m: nat, r: Record, a: nat, k: nat)
    requires Run(c, tr, m) && m < |tr| && tr[m].Store? && tr[m].a == a && InRange(c, tr[m]) && ReadsPast(tr, m)
    requires k < |Mo(tr, a)| && Mo(tr, a)[k] == m
    requires |r.seen| == c.threads
    requires forall u :: 0 <= u < c.threads ==> r.seen[u] == if u == tr[m].t then SeenAt(Stamp(c, tr, m)) else Never
    ensures RecordSeen(c, tr, m + 1, r, a, k)
  {
    hide Apply, Enabled, Stamp, Mo;
    assert forall i :: 0 <= i < m ==> !Touches(tr, i, a, k);
    assert Touches(tr, m, a, k);
    forall u | 0 <= u < c.threads
      ensures SeenRep(c, tr, m + 1, r.seen[u], a, k, u)
    {
      if u == tr[m].t {
        assert TouchesBy(c, tr, m, a, k, u);
      }
    }
  }

  lemma NotTouched(tr: Trace, m: nat, a: nat, k: nat)
    requires m < |tr| && k < |Writes(tr, m, a)| && !(tr[m].Load? && tr[m].a == a && tr[m].k == k)
    ensures !Touches(tr, m, a, k)
  {
    WritesPrefix(tr, m, |tr|, a);
  }

  lemma SeenGrows(c: Config, tr: Trace, m: nat, recs: seq<Record>, after: seq<Record>, a: nat)
    requires Run(c, tr, m) && m < |tr| && InRange(c, tr[m]) && ReadsPast(tr, m) && a < c.atomics
    requires HistorySeen(c, tr, m, recs, a) && |recs| == |Writes(tr, m, a)|
    requires forall k :: 0 <= k < |recs| ==> RecordOk(c.threads, recs[k])
    requires |recs| <= |after|
    requires forall k :: 0 <= k < |recs| ==>
      after[k] ==
          if tr[m].Load? && tr[m].a == a && tr[m].k == k then MarkSeen(recs[k], tr[m].t, Stamp(c, tr, m)) else recs[k]
    requires if tr[m].Store? && tr[m].a == a
             then |after| == |recs| + 1 && RecordSeen(c, tr, m + 1, after[|recs|], a, |recs|) else |after| == |recs|
    ensures HistorySeen(c, tr, m + 1, after, a)
  {
    hide Apply, Enabled, RecordSeen, Stamp, Touches;
    var e := tr[m];
    forall k | 0 <= k < |after|
      ensures RecordSeen(c, tr, m + 1, after[k], a, k)
    {
      if k < |recs| {
        if e.Load? && e.a == a && e.k == k {
          MarkedRecord(c, tr, m, recs[k]);
        } else {
          NotTouched(tr, m, a, k);
          UntouchedRecord(c, tr, m, recs[k], a, k);
        }
      }
    }
  }

  /** A step's effect on one history: a mark, a new record, or nothing. */
  lemma HistoryEffect(c: Config, s: State, e: Event, a: nat)
    requires Typed(c, s) && Enabled(c, s, e) && a < c.atomics
    ensures InRange(c, e)
    ensures var recs, after := s.atomics[a], Apply(c, s, e).atomics[a];
            && |recs| <= |after|
            && (forall k :: 0 <= k < |recs| ==>
                 after[k] == if e.Load? && e.a == a && e.k == k
                   then MarkSeen(recs[k], e.t, s.threads[e.t].clock[e.t] + 1) else recs[k])
            && (if e.Store? && e.a == a then
                  && |after| == |recs| + 1 && |after[|recs|].seen| == c.threads
                  && forall u :: 0 <= u < c.threads ==>
                       after[|recs|].seen[u] == if u == e.t then SeenAt(s.threads[e.t].clock[e.t] + 1) else Never
                else |after| == |recs|)
  {
    Effects(c, s, e);
    InRangeOf(c, s, e);
    hide Apply, Enabled;
    assert e.Store? ==> ThreadOk(c.threads, s.threads[e.t]);
  }

  lemma SeenStep(c: Config, tr: Trace, m: nat, a: nat)
    requires Run(c, tr, m + 1) && a < c.atomics && Inv(c, tr, m)
    requires HistorySeen(c, tr, m, At(c, tr, m).atomics[a], a)
    ensures HistorySeen(c, tr, m + 1, At(c, tr, m + 1).atomics[a], a)
  {
    hide Apply, Enabled, HistorySeen, RecordSeen, ThreadRep, RecordRep, Rep, MarkSeen;
    var s, e := At(c, tr, m), tr[m];
    var recs, after := s.atomics[a], At(c, tr, m + 1).atomics[a];
    assert Legal(c, tr, m);
    HistoryEffect(c, s, e, a);
    assert HistoryRep(c, tr, m, recs, a);
    assert forall k :: 0 <= k < |recs| ==> RecordOk(c.threads, recs[k]);
    hide Inv, HistoryRep;
    if e.Store? && e.a == a {
      StorePosition(tr, m);
      FreshRecord(c, tr, m, after[|recs|], a, |recs|);
    }
    SeenGrows(c, tr, m, recs, after, a);
  }

  lemma SeenNone(c: Config, tr: Trace, a: nat)
    requires a < c.atomics
    ensures HistorySeen(c, tr, 0, At(c, tr, 0).atomics[a], a)
  {
  }

  lemma {:induction false} SeenAlways(c: Config, tr: Trace, m: nat, a: nat)
    requires Run(c, tr, m) && a < c.atomics
    ensures HistorySeen(c, tr, m, At(c, tr, m).atomics[a], a)
  {
    hide At, Enabled, Inv, HistorySeen;
    if m == 0 {
      SeenNone(c, tr, a);
    } else {
      SeenAlways(c, tr, m - 1, a);
      InvAlways(c, tr, m - 1);
      SeenStep(c, tr, m - 1, a);
    }
  }

  // ---- coherence

  /** An operation that touches record k of atomic a. */
  lemma TouchPosition(c: Config, tr: Trace, m: nat, i: nat, a: nat, k: nat)
    requires Run(c, tr, m) && i < m && Touches(tr, i, a, k)
    ensures a < c.atomics && Acts(c, tr, i) && k < |Mo(tr, a)| && Mo(tr, a)[k] <= i
            && (tr[i].Load? ==> Mo(tr, a)[k] < i)
  {
    hide Apply, Enabled, Inv;
    assert Legal(c, tr, i);
    InRangeOf(c, At(c, tr, i), tr[i]);
    if tr[i].Load? {
      InvAlways(c, tr, i);
      ReadPosition(c, tr, i, a, k);
    }
  }

  /** A thread that knows of a touch of record r is stopped there: its loads cannot look past r. */
  lemma KnownStops(c: Config, tr: Trace, m: nat, t: nat, a: nat, r: nat, i: nat, mo: Order)
    requires Run(c, tr, m) && a < c.atomics && r < |At(c, tr, m).atomics[a]| && t < c.threads
    requires i < m && Touches(tr, i, a, r) && Acts(c, tr, i)
    requires At(c, tr, m).threads[t].clock[tr[i].t] >= Stamp(c, tr, i)
    ensures Stops(At(c, tr, m).threads[t], t, At(c, tr, m).atomics[a], r, mo)
  {
    hide Apply, Enabled, Stamp;
    SeenAlways(c, tr, m, a);
    var rec := At(c, tr, m).atomics[a][r];
    assert RecordSeen(c, tr, m, rec, a, r);
    assert TouchesBy(c, tr, i, a, r, tr[i].t);
    assert SeenRep(c, tr, m, rec.seen[tr[i].t], a, r, tr[i].t);
  }

  /** What the thread's clock knows when it starts operation m. */
  lemma KnownIsBelow(c: Config, tr: Trace, m: nat, i: nat)
    requires Run(c, tr, m) && m < |tr| && !tr[m].GlobalFence? && tr[m].t < c.threads && i < m && Acts(c, tr, i)
    ensures At(c, tr, m).threads[tr[m].t].clock[tr[i].t] >= Stamp(c, tr, i) <==>
              i in Below(tr, ThreadOps(tr, m, tr[m].t))
  {
    hide Apply, Enabled, Stamp;
    InvAlways(c, tr, m);
    assert ThreadRep(c, tr, m, At(c, tr, m).threads[tr[m].t], tr[m].t);
  }

  /** A load returns no record older than one that the thread already knew to be touched. */
  lemma LoadRespectsKnown(c: Config, tr: Trace, m: nat, i: nat, k: nat)
    requires Run(c, tr, m + 1) && tr[m].Load? && i < m && Touches(tr, i, tr[m].a, k)
    requires i in Below(tr, ThreadOps(tr, m, tr[m].t))
    ensures k <= tr[m].k
  {
    var s, e := At(c, tr, m), tr[m];
    assert Legal(c, tr, m);
    InRangeOf(c, s, e);
    TouchPosition(c, tr, m, i, e.a, k);
    KnownIsBelow(c, tr, m, i);
    InvAlways(c, tr, m);
    RecordExists(c, tr, m, i, e.a, k);
    if k > e.k {
      KnownStops(c, tr, m, e.t, e.a, k, i, e.mo);
      ReadNotStopped(c, s, e, k);
    }
  }

  lemma ReadNotStopped(c: Config, s: State, e: Event, r: nat)
    requires Typed(c, s) && Enabled(c, s, e) && e.Load? && e.k < r < |s.atomics[e.a]|
    ensures !Stops(s.threads[e.t], e.t, s.atomics[e.a], r, e.mo)
  {
  }

  lemma RecordExists(c: Config, tr: Trace, m: nat, i: nat, a: nat, k: nat)
    requires Run(c, tr, m) && Inv(c, tr, m) && i < m && Touches(tr, i, a, k) && a < c.atomics
    ensures k < |At(c, tr, m).atomics[a]|
  {
    hide Apply, Enabled, ThreadRep, RecordRep, Rep;
    assert HistoryRep(c, tr, m, At(c, tr, m).atomics[a], a);
    TouchPosition(c, tr, m, i, a, k);
    WritesPosition(tr, m, a, k);
  }

  /** A store before m is among the writes before m. */
  lemma WritesPosition(tr: Trace, m: nat, a: nat, k: nat)
    requires m <= |tr| && k < |Mo(tr, a)| && Mo(tr, a)[k] < m
    ensures k < |Writes(tr, m, a)|
  {
    WritesPrefix(tr, m, |tr|, a);
    if k >= |Writes(tr, m, a)| {
      WritesAll(tr, m, |tr|, a, k);
    }
  }

  lemma {:induction false} WritesAll(tr: Trace, m: nat, n: nat, a: nat, k: nat)
    requires m <= n <= |tr| && |Writes(tr, m, a)| <= k < |Writes(tr, n, a)|
    ensures Writes(tr, n, a)[k] >= m
    decreases n
  {
    if k < |Writes(tr, n - 1, a)| {
      WritesAll(tr, m, n - 1, a, k);
    }
  }

  /** Main theorem: operations on one atomic that are ordered by happens-before touch records in
      modification order. Covers write-write, read-write, write-read and read-read coherence, and
      records that have long left the ring. */
  lemma CoherentOrder(c: Config, tr: Trace, m: nat, i: nat, j: nat, a: nat, p: nat, q: nat)
    requires Run(c, tr, m) && i < j < m && HB(tr, i, j) && Touches(tr, i, a, p) && Touches(tr, j, a, q)
    ensures p <= q
    ensures tr[j].Store? ==> p < q
  {
    hide Apply, Enabled;
    TouchPosition(c, tr, m, i, a, p);
    TouchPosition(c, tr, m, j, a, q);
    if tr[j].Load? {
      KnownOrRead(tr, i, j);
      if i in Below(tr, ThreadOps(tr, j, tr[j].t)) {
        LoadRespectsKnown(c, tr, j, i, p);
      } else {
        ReadFromHeads(tr, a, q, i);
        OlderRecord(tr, a, p, q);
      }
    }
  }

  /** What happens before a load was known to its thread, or comes with the record it reads. */
  lemma KnownOrRead(tr: Trace, i: nat, j: nat)
    requires j < |tr| && tr[j].Load? && HB(tr, i, j) && i < j
    requires tr[j].k < |Mo(tr, tr[j].a)| && Mo(tr, tr[j].a)[tr[j].k] < j
    ensures i in Below(tr, ThreadOps(tr, j, tr[j].t)) || i in Below(tr, Heads(tr, tr[j].a, tr[j].k))
  {
    BelowOne(tr, j);
    assert i in Past(tr, j);
    if Acquires(tr[j].mo) {
      PredsAcquireLoad(tr, j);
      BelowUnion(tr, ThreadOps(tr, j, tr[j].t), Heads(tr, tr[j].a, tr[j].k));
    } else {
      PredsPlain(tr, j);
    }
  }

  lemma ReadFromHeads(tr: Trace, a: nat, q: nat, i: nat)
    requires q < |Mo(tr, a)| && i in Below(tr, Heads(tr, a, q))
    ensures i <= Mo(tr, a)[q]
  {
    var h :| h in Heads(tr, a, q) && i in Past(tr, h);
    HeadsBefore(tr, a, q, h);
  }

  lemma OlderRecord(tr: Trace, a: nat, p: nat, q: nat)
    requires p < |Mo(tr, a)| && q < |Mo(tr, a)| && Mo(tr, a)[p] <= Mo(tr, a)[q]
    ensures p <= q
  {
  }

  /** A thread never goes back in the modification order of an atomic. */
  lemma ReadsAreMonotone(c: Config, tr: Trace, m: nat, i: nat, j: nat)
    requires Run(c, tr, m) && i < j < m && tr[i].Load? && tr[j].Load? && tr[i].t == tr[j].t && tr[i].a == tr[j].a
    ensures tr[i].k <= tr[j].k
  {
    assert Edge(tr, i, j) && HB(tr, i, j);
    CoherentOrder(c, tr, m, i, j, tr[i].a, tr[i].k, tr[j].k);
  }

  // ---- which records a load may return

  /** i happens before the next operation of thread t. */
  ghost predicate KnownTo(tr: Trace, m: nat, t: nat, i: nat) {
    exists j :: 0 <= j < m && j < |tr| && By(tr[j], t) && (i == j || HB(tr, i, j))
  }

  /** Thread t touched record k before one of its yields. */
  ghost predicate TouchedBeforeYield(tr: Trace, m: nat, t: nat, a: nat, k: nat) {
    exists i, y :: 0 <= i < y < m && y < |tr| && Touches(tr, i, a, k) && tr[i].t == t && tr[y] == Yield(t)
  }

  /** A load by thread t may not look past record r. */
  ghost predicate Blocked(tr: Trace, m: nat, t: nat, a: nat, r: nat, mo: Order)
    requires r < |Mo(tr, a)|
  {
    || (mo == SeqCst && tr[Mo(tr, a)[r]].mo == SeqCst)
    || (exists i :: 0 <= i < m && Touches(tr, i, a, r) && KnownTo(tr, m, t, i))
    || (r > 0 && TouchedBeforeYield(tr, m, t, a, r - 1))
  }

  /** last_yield_ is the thread's own timestamp at its last yield. */
  ghost predicate YieldRep(c: Config, tr: Trace, m: nat, ts: nat, t: nat)
  {
    m <= |tr| && t < c.threads &&
    if ts == 0 then forall y :: 0 <= y < m ==> tr[y] != Yield(t)
    else
      exists y ::
        0 <= y < m && tr[y] == Yield(t) && ts == Own(c, tr, y, t) && forall x :: y < x < m ==> tr[x] != Yield(t)
  }

  lemma YieldEffect(c: Config, s: State, e: Event, t: nat)
    requires Typed(c, s) && Enabled(c, s, e) && t < c.threads
    ensures Apply(c, s, e).threads[t].lastYield ==
              if e == Yield(t) then s.threads[t].clock[t] else s.threads[t].lastYield
  {
  }

  /** Own entries start at 1. */
  lemma {:induction false} OwnPositive(c: Config, tr: Trace, m: nat, t: nat)
    requires Run(c, tr, m) && t < c.threads
    ensures Own(c, tr, m, t) >= 1
  {
    hide Apply, Enabled;
    if m > 0 {
      OwnPositive(c, tr, m - 1, t);
      BoundedAlways(c, tr, m - 1);
      assert Legal(c, tr, m - 1);
      OwnStep(c, At(c, tr, m - 1), tr[m - 1]);
    }
  }

  lemma YieldStep(c: Config, tr: Trace, m: nat, t: nat)
    requires Run(c, tr, m + 1) && t < c.threads && YieldRep(c, tr, m, At(c, tr, m).threads[t].lastYield, t)
    ensures YieldRep(c, tr, m + 1, At(c, tr, m + 1).threads[t].lastYield, t)
  {
    hide Apply, Enabled, YieldRep;
    assert Legal(c, tr, m);
    YieldEffect(c, At(c, tr, m), tr[m], t);
    OwnPositive(c, tr, m, t);
    YieldGrows(c, tr, m, At(c, tr, m).threads[t].lastYield, At(c, tr, m).threads[t].clock[t], t);
  }

  lemma {:induction false} YieldAlways(c: Config, tr: Trace, m: nat, t: nat)
    requires Run(c, tr, m) && t < c.threads
    ensures YieldRep(c, tr, m, At(c, tr, m).threads[t].lastYield, t)
  {
    hide Enabled, At, YieldRep;
    if m == 0 {
      YieldNone(c, tr, t);
    } else {
      YieldAlways(c, tr, m - 1, t);
      YieldStep(c, tr, m - 1, t);
    }
  }

  lemma YieldNone(c: Config, tr: Trace, t: nat)
    requires t < c.threads
    ensures YieldRep(c, tr, 0, At(c, tr, 0).threads[t].lastYield, t)
  {
  }

  lemma YieldGrows(c: Config, tr: Trace, m: nat, ts: nat, own: nat, t: nat)
    requires m < |tr| && YieldRep(c, tr, m, ts, t) && own == Own(c, tr, m, t) && own >= 1
    ensures YieldRep(c, tr, m + 1, if tr[m] == Yield(t) then own else ts, t)
  {
    hide Own;
    if tr[m] != Yield(t) && ts != 0 {
      var y :| 0 <= y < m && tr[y] == Yield(t) && ts == Own(c, tr, y, t) && forall x :: y < x < m ==> tr[x] != Yield(t);
      assert forall x :: y < x < m + 1 ==> tr[x] != Yield(t);
    }
  }

  /** The own entry at two moments of a run. */
  lemma {:induction false} OwnMonotone(c: Config, tr: Trace, i: nat, m: nat, t: nat)
    requires Run(c, tr, m) && i <= m && t < c.threads
    ensures Own(c, tr, i, t) <= Own(c, tr, m, t)
    decreases m
  {
    hide Enabled, At, Own;
    if i < m {
      OwnMonotone(c, tr, i, m - 1, t);
      OwnAdvances(c, tr, m - 1, t);
    }
  }

  lemma StampVsYield(c: Config, tr: Trace, m: nat, i: nat, y: nat)
    requires Run(c, tr, m) && i < m && y < m && Acts(c, tr, i) && tr[y] == Yield(tr[i].t)
    ensures Stamp(c, tr, i) <= Own(c, tr, y, tr[i].t) <==> i < y
  {
    hide Apply, Enabled, Own;
    if i < y {
      StampWithin(c, tr, y, i);
    } else {
      OwnMonotone(c, tr, y, i, tr[i].t);
    }
  }

  /** first_seen_order_[t] <= last_yield_ says that t touched the record before a yield. */
  lemma YieldCheck(c: Config, tr: Trace, m: nat, t: nat, ts: nat, s: Seen, a: nat, k: nat)
    requires Run(c, tr, m) && t < c.threads && YieldRep(c, tr, m, ts, t) && SeenRep(c, tr, m, s, a, k, t)
    ensures Reaches(ts, s) <==> TouchedBeforeYield(tr, m, t, a, k)
  {
    hide Apply, Enabled, Own, Touches, Stamp;
    if Reaches(ts, s) {
      var i :| 0 <= i < m && TouchesBy(c, tr, i, a, k, t) && Stamp(c, tr, i) == s.ts;
      StampPositive(c, tr, i);
      var y :| 0 <= y < m && tr[y] == Yield(t) && ts == Own(c, tr, y, t);
      StampVsYield(c, tr, m, i, y);
    }
    if TouchedBeforeYield(tr, m, t, a, k) {
      YieldSeen(c, tr, m, t, ts, s, a, k);
    }
  }

  lemma StampPositive(c: Config, tr: Trace, i: nat)
    requires Acts(c, tr, i)
    ensures Stamp(c, tr, i) > 0
  {
  }

  lemma YieldSeen(c: Config, tr: Trace, m: nat, t: nat, ts: nat, s: Seen, a: nat, k: nat)
    requires Run(c, tr, m) && t < c.threads && YieldRep(c, tr, m, ts, t) && SeenRep(c, tr, m, s, a, k, t)
    requires TouchedBeforeYield(tr, m, t, a, k)
    ensures Reaches(ts, s)
  {
    var i, y :| 0 <= i < y < m && y < |tr| && Touches(tr, i, a, k) && tr[i].t == t && tr[y] == Yield(t);
    TouchPosition(c, tr, m, i, a, k);
    hide Apply, Enabled, Own, Touches, Stamp;
    assert TouchesBy(c, tr, i, a, k, t);
    var z :| 0 <= z < m && tr[z] == Yield(t) && ts == Own(c, tr, z, t) && forall x :: z < x < m ==> tr[x] != Yield(t);
    StampVsYield(c, tr, m, i, z);
  }

  lemma KnownToBelow(tr: Trace, m: nat, t: nat, i: nat)
    requires m <= |tr|
    ensures KnownTo(tr, m, t, i) <==> i in Below(tr, ThreadOps(tr, m, t))
  {
    hide HB;
    if KnownTo(tr, m, t, i) {
      var j :| 0 <= j < m && By(tr[j], t) && (i == j || HB(tr, i, j));
      assert j in ThreadOps(tr, m, t);
      HBForward(tr, i, j);
      assert i in Past(tr, j);
    }
    if i in Below(tr, ThreadOps(tr, m, t)) {
      var j :| j in ThreadOps(tr, m, t) && i in Past(tr, j);
    }
  }

  lemma HBForward(tr: Trace, i: nat, j: nat)
    requires i == j || HB(tr, i, j)
    ensures i <= j
  {
  }

  /** What thread t's clock has reached when it starts operation m. */
  ghost predicate Knows(c: Config, tr: Trace, m: nat, clock: Clock, t: nat)
  {
    |clock| == c.threads && forall i :: 0 <= i < m && Acts(c, tr, i) ==>
        (clock[tr[i].t] >= Stamp(c, tr, i) <==> KnownTo(tr, m, t, i))
  }

  lemma ClockKnows(c: Config, tr: Trace, m: nat)
    requires Run(c, tr, m) && m < |tr| && tr[m].Load? && tr[m].t < c.threads
    ensures Knows(c, tr, m, At(c, tr, m).threads[tr[m].t].clock, tr[m].t)
  {
    hide Apply, Enabled, Stamp, KnownTo;
    forall i | 0 <= i < m && Acts(c, tr, i)
      ensures At(c, tr, m).threads[tr[m].t].clock[tr[i].t] >= Stamp(c, tr, i) <==> KnownTo(tr, m, tr[m].t, i)
    {
      KnownIsBelow(c, tr, m, i);
      KnownToBelow(tr, m, tr[m].t, i);
    }
  }

  lemma ReachedIsTouched(c: Config, tr: Trace, m: nat, clock: Clock, t: nat, r: Record, a: nat, k: nat)
    requires Knows(c, tr, m, clock, t) && RecordRep(c, tr, m, r, a, k) && RecordSeen(c, tr, m, r, a, k)
    requires clock[r.writer] >= r.stamp || exists u :: 0 <= u < c.threads && Reaches(clock[u], r.seen[u])
    ensures exists i :: 0 <= i < m && Touches(tr, i, a, k) && KnownTo(tr, m, t, i)
  {
    hide Stamp, KnownTo, Mo, Rep;
    if clock[r.writer] >= r.stamp {
      StoreTouches(tr, a, k);
    } else {
      var u :| 0 <= u < c.threads && Reaches(clock[u], r.seen[u]);
      assert SeenRep(c, tr, m, r.seen[u], a, k, u);
      var i :| 0 <= i < m && TouchesBy(c, tr, i, a, k, u) && Stamp(c, tr, i) == r.seen[u].ts;
    }
  }

  lemma TouchedIsReached(c: Config, tr: Trace, m: nat, clock: Clock, t: nat, r: Record, a: nat, k: nat, i: nat)
    requires Knows(c, tr, m, clock, t) && RecordSeen(c, tr, m, r, a, k)
    requires i < m && Touches(tr, i, a, k) && Acts(c, tr, i) && KnownTo(tr, m, t, i)
    ensures exists u :: 0 <= u < c.threads && Reaches(clock[u], r.seen[u])
  {
    hide Stamp, KnownTo, Touches;
    assert TouchesBy(c, tr, i, a, k, tr[i].t);
    assert SeenRep(c, tr, m, r.seen[tr[i].t], a, k, tr[i].t);
    assert Reaches(clock[tr[i].t], r.seen[tr[i].t]);
  }

  lemma StoreTouches(tr: Trace, a: nat, k: nat)
    requires k < |Mo(tr, a)|
    ensures Touches(tr, Mo(tr, a)[k], a, k)
  {
  }

  /** The clock tests of one record are together the test for a known touch. */
  lemma TouchCheck(c: Config, tr: Trace, m: nat, clock: Clock, t: nat, r: Record, a: nat, k: nat)
    requires Run(c, tr, m) && Knows(c, tr, m, clock, t) && RecordRep(c, tr, m, r, a, k) && RecordSeen(c, tr, m, r, a, k)
    ensures (clock[r.writer] >= r.stamp || exists u :: 0 <= u < c.threads && Reaches(clock[u], r.seen[u])) <==>
            exists i :: 0 <= i < m && Touches(tr, i, a, k) && KnownTo(tr, m, t, i)
  {
    hide Apply, Enabled, Stamp, KnownTo, Mo, Touches, Knows, RecordRep, RecordSeen, Reaches;
    KnowsLength(c, tr, m, clock, t, r, a, k);
    if clock[r.writer] >= r.stamp || exists u :: 0 <= u < c.threads && Reaches(clock[u], r.seen[u]) {
      ReachedIsTouched(c, tr, m, clock, t, r, a, k);
    }
    if exists i :: 0 <= i < m && Touches(tr, i, a, k) && KnownTo(tr, m, t, i) {
      var i :| 0 <= i < m && Touches(tr, i, a, k) && KnownTo(tr, m, t, i);
      TouchPosition(c, tr, m, i, a, k);
      TouchedIsReached(c, tr, m, clock, t, r, a, k, i);
    }
  }

  lemma KnowsLength(c: Config, tr: Trace, m: nat, clock: Clock, t: nat, r: Record, a: nat, k: nat)
    requires Knows(c, tr, m, clock, t) && RecordRep(c, tr, m, r, a, k) && RecordSeen(c, tr, m, r, a, k)
    ensures |clock| == |r.seen| == c.threads && r.writer < c.threads
  {
  }

  lemma RecordFacts(c: Config, tr: Trace, m: nat, r: Record, a: nat, k: nat)
    requires RecordRep(c, tr, m, r, a, k)
    ensures k < |Mo(tr, a)| && r.seqCst == (tr[Mo(tr, a)[k]].mo == SeqCst)
  {
  }

  lemma SeenOf(c: Config, tr: Trace, m: nat, r: Record, a: nat, k: nat, u: nat)
    requires RecordSeen(c, tr, m, r, a, k) && u < c.threads
    ensures |r.seen| == c.threads && SeenRep(c, tr, m, r.seen[u], a, k, u)
  {
  }

  lemma StopsMeans(c: Config, tr: Trace, m: nat, th: Thread, t: nat, recs: seq<Record>, r: nat, a: nat, mo: Order)
    requires Run(c, tr, m) && t < c.threads && Knows(c, tr, m, th.clock, t) && YieldRep(c, tr, m, th.lastYield, t)
    requires r < |recs| && forall k :: 0 <= k < |recs| ==> RecordSeen(c, tr, m, recs[k], a, k)
    requires Readable(th, t, recs)
    requires RecordRep(c, tr, m, recs[r], a, r)
    ensures r < |Mo(tr, a)|
    ensures Stops(th, t, recs, r, mo) <==> Blocked(tr, m, t, a, r, mo)
  {
    hide *;
    KnowsLength(c, tr, m, th.clock, t, recs[r], a, r);
    RecordFacts(c, tr, m, recs[r], a, r);
    TouchCheck(c, tr, m, th.clock, t, recs[r], a, r);
    if r > 0 {
      SeenOf(c, tr, m, recs[r - 1], a, r - 1, t);
      YieldCheck(c, tr, m, t, th.lastYield, recs[r - 1].seen[t], a, r - 1);
    }
    StopsUnfold(th, t, recs, r, mo);
    BlockedUnfold(tr, m, t, a, r, mo);
  }

  lemma StopsUnfold(th: Thread, t: nat, recs: seq<Record>, r: nat, mo: Order)
    requires r < |recs| && Readable(th, t, recs)
    ensures Stops(th, t, recs, r, mo) <==>
            || (r > 0 && Reaches(th.lastYield, recs[r - 1].seen[t]))
            || (mo == SeqCst && recs[r].seqCst)
            || (th.clock[recs[r].writer] >= recs[r].stamp
            || exists u :: 0 <= u < |th.clock| && Reaches(th.clock[u], recs[r].seen[u]))
  {
  }

  lemma BlockedUnfold(tr: Trace, m: nat, t: nat, a: nat, r: nat, mo: Order)
    requires r < |Mo(tr, a)|
    ensures Blocked(tr, m, t, a, r, mo) <==>
            || (mo == SeqCst && tr[Mo(tr, a)[r]].mo == SeqCst)
            || (exists i :: 0 <= i < m && Touches(tr, i, a, r) && KnownTo(tr, m, t, i))
            || (r > 0 && TouchedBeforeYield(tr, m, t, a, r - 1))
  {
  }

  lemma StopsExact(c: Config, tr: Trace, m: nat, r: nat)
    requires Run(c, tr, m) && m < |tr| && tr[m].Load? && InRange(c, tr[m]) && r < |At(c, tr, m).atomics[tr[m].a]|
    ensures r < |Mo(tr, tr[m].a)|
    ensures Stops(At(c, tr, m).threads[tr[m].t], tr[m].t, At(c, tr, m).atomics[tr[m].a], r, tr[m].mo)
            <==> Blocked(tr, m, tr[m].t, tr[m].a, r, tr[m].mo)
  {
    hide Apply, Enabled, RecordSeen, YieldRep, ThreadRep, RecordRep, Knows, Stops, Blocked;
    var s := At(c, tr, m);
    SeenAlways(c, tr, m, tr[m].a);
    InvAlways(c, tr, m);
    YieldAlways(c, tr, m, tr[m].t);
    ClockKnows(c, tr, m);
    assert HistoryRep(c, tr, m, s.atomics[tr[m].a], tr[m].a);
    assert RecordRep(c, tr, m, s.atomics[tr[m].a][r], tr[m].a, r);
    StopsMeans(c, tr, m, s.threads[tr[m].t], tr[m].t, s.atomics[tr[m].a], r, tr[m].a, tr[m].mo);
  }

  /** Nothing blocks a load by t at a record newer than k. */
  ghost predicate Unblocked(tr: Trace, m: nat, t: nat, a: nat, k: nat, mo: Order)
    requires m <= |tr|
  {
    forall r :: k < r < |Writes(tr, m, a)| ==> r < |Mo(tr, a)| && !Blocked(tr, m, t, a, r, mo)
  }

  /** At record r, the detector's stop conditions and the blocking rule say the same. */
  ghost predicate Agree(tr: Trace, m: nat, t: nat, th: Thread, recs: seq<Record>, r: nat, a: nat, mo: Order) {
    && r < |recs| && Readable(th, t, recs) && r < |Mo(tr, a)|
    && (Stops(th, t, recs, r, mo) <==> Blocked(tr, m, t, a, r, mo))
  }

  lemma LoadChoicesMean(tr: Trace, m: nat, th: Thread, recs: seq<Record>, window: nat)
    requires m < |tr| && tr[m].Load? && |recs| == |Writes(tr, m, tr[m].a)| && Readable(th, tr[m].t, recs)
    requires forall r: nat :: r < |recs| ==> Agree(tr, m, tr[m].t, th, recs, r, tr[m].a, tr[m].mo)
    ensures CanRead(th, tr[m].t, recs, tr[m].k, tr[m].mo, false, window) <==>
            && tr[m].k < |Writes(tr, m, tr[m].a)| <= tr[m].k + window + 1
            && Unblocked(tr, m, tr[m].t, tr[m].a, tr[m].k, tr[m].mo)
  {
    hide Stops, Blocked, Mo, Writes;
    var e := tr[m];
    forall r: nat | e.k < r < |recs|
      ensures r < |Mo(tr, e.a)| && (Stops(th, e.t, recs, r, e.mo) <==> Blocked(tr, m, e.t, e.a, r, e.mo))
    {
      assert Agree(tr, m, e.t, th, recs, r, e.a, e.mo);
    }
    if Unblocked(tr, m, e.t, e.a, e.k, e.mo) {
      forall r: nat | e.k < r < |recs|
        ensures !Stops(th, e.t, recs, r, e.mo)
      {
        assert Agree(tr, m, e.t, th, recs, r, e.a, e.mo);
      }
    }
    if CanRead(th, e.t, recs, e.k, e.mo, false, window) {
      forall r: nat | e.k < r < |recs|
        ensures r < |Mo(tr, e.a)| && !Blocked(tr, m, e.t, e.a, r, e.mo)
      {
        assert Agree(tr, m, e.t, th, recs, r, e.a, e.mo);
        assert !Stops(th, e.t, recs, r, e.mo);
      }
    }
  }

  lemma EnabledLoad(c: Config, s: State, e: Event)
    requires Typed(c, s) && e.Load? && InRange(c, e) && !e.rmw && (e.mo == Relaxed || e.mo == Acquire || e.mo == SeqCst)
    ensures e.t < |s.threads| && e.a < |s.atomics|
    ensures Readable(s.threads[e.t], e.t, s.atomics[e.a])
    ensures Enabled(c, s, e) <==> CanRead(s.threads[e.t], e.t, s.atomics[e.a], e.k, e.mo, false, c.window)
  {
    assert forall k :: 0 <= k < |s.atomics[e.a]| ==> RecordOk(c.threads, s.atomics[e.a][k]);
    hide CanRead;
  }

  /** Main theorem: a load may return record k exactly when k lies in the window and nothing blocks the
      load at a newer record: no touch of it is known, no seq_cst store meets a seq_cst load, and the record
      before it was not touched before a yield. */
  lemma LoadChoicesExact(c: Config, tr: Trace, m: nat)
    requires Run(c, tr, m) && m < |tr| && tr[m].Load? && InRange(c, tr[m]) && !tr[m].rmw
    requires tr[m].mo == Relaxed || tr[m].mo == Acquire || tr[m].mo == SeqCst
    ensures Enabled(c, At(c, tr, m), tr[m]) <==>
            && tr[m].k < |Writes(tr, m, tr[m].a)| <= tr[m].k + c.window + 1
            && Unblocked(tr, m, tr[m].t, tr[m].a, tr[m].k, tr[m].mo)
  {
    var s, e := At(c, tr, m), tr[m];
    assert e.a < c.atomics && e.t < c.threads;
    hide *;
    EnabledLoad(c, s, e);
    HistoryLength(c, tr, m, e.a);
    forall r: nat | r < |s.atomics[e.a]|
      ensures Agree(tr, m, e.t, s.threads[e.t], s.atomics[e.a], r, e.a, e.mo)
    {
      StopsExact(c, tr, m, r);
      AgreeIntro(tr, m, e.t, s.threads[e.t], s.atomics[e.a], r, e.a, e.mo);
    }
    LoadChoicesMean(tr, m, s.threads[e.t], s.atomics[e.a], c.window);
  }

  lemma AgreeIntro(tr: Trace, m: nat, t: nat, th: Thread, recs: seq<Record>, r: nat, a: nat, mo: Order)
    requires r < |recs| && Readable(th, t, recs) && r < |Mo(tr, a)|
    requires Stops(th, t, recs, r, mo) <==> Blocked(tr, m, t, a, r, mo)
    ensures Agree(tr, m, t, th, recs, r, a, mo)
  {
  }

  lemma HistoryLength(c: Config, tr: Trace, m: nat, a: nat)
    requires Run(c, tr, m) && a < c.atomics
    ensures |At(c, tr, m).atomics[a]| == |Writes(tr, m, a)|
  {
    hide Apply, Enabled, ThreadRep, RecordRep, Rep;
    InvAlways(c, tr, m);
    assert HistoryRep(c, tr, m, At(c, tr, m).atomics[a], a);
  }
}
