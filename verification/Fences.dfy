/** Fences (section 29.8 of ISO C++11): a release fence reaches an acquire fence through relaxed
    accesses, and seq_cst fences rule out stale reads on all sides of store buffering. */
module Fences {
  import opened Clocks
  import opened Memory
  import opened HappensBefore
  import opened Dependencies
  import opened Exactness
  import opened Represent
  import opened Coherence

  lemma ThreadRepOf(c: Config, tr: Trace, m: nat, t: nat)
    requires Run(c, tr, m) && t < c.threads
    ensures Rep(c, tr, m, ClockAt(c, tr, m, t), ThreadOps(tr, m, t))
  {
    InvAlways(c, tr, m);
    hide Apply, Enabled, Rep, HistoryRep;
    assert ThreadRep(c, tr, m, At(c, tr, m).threads[t], t);
  }

  /** The clock has reached the timestamp of operation i. */
  predicate Reached(c: Config, tr: Trace, clock: Clock, i: nat) {
    Acts(c, tr, i) && |clock| == c.threads && clock[tr[i].t] >= Stamp(c, tr, i)
  }

  lemma RepAtLast(c: Config, tr: Trace, m: nat, clock: Clock, ops: set<nat>, i: nat)
    requires m < |tr| && i < m && Acts(c, tr, i) && Rep(c, tr, m + 1, clock, ops) && Below(tr, ops) == Past(tr, m)
    ensures Reached(c, tr, clock, i) <==> HB(tr, i, m)
  {
    hide At, Own, Stamp, Below, Past, HB;
    PastIsHB(tr, m, i);
  }

  /** After operation m, its thread's clock has reached the timestamps of what happens before m. */
  lemma ClockAfter(c: Config, tr: Trace, m: nat, i: nat)
    requires m < |tr| && Run(c, tr, m + 1) && !tr[m].GlobalFence? && tr[m].t < c.threads && i < m && Acts(c, tr, i)
    ensures Reached(c, tr, ClockAt(c, tr, m + 1, tr[m].t), i) <==> HB(tr, i, m)
  {
    hide *;
    ThreadRepOf(c, tr, m + 1, tr[m].t);
    ThreadOpsBelowLast(tr, m);
    RepAtLast(c, tr, m, ClockAt(c, tr, m + 1, tr[m].t), ThreadOps(tr, m + 1, tr[m].t), i);
  }

  lemma PastIsHB(tr: Trace, m: nat, i: nat)
    requires m < |tr| && i < m
    ensures i in Past(tr, m) <==> HB(tr, i, m)
  {
  }

  /** The clock of g's thread after g is at least, entry by entry, that of f's thread after f. */
  ghost predicate Dominates(c: Config, tr: Trace, g: nat, f: nat)
    requires f < |tr| && g < |tr| && !tr[f].GlobalFence? && !tr[g].GlobalFence? && tr[f].t < c.threads
             && tr[g].t < c.threads
  {
    Leq(ClockAt(c, tr, f + 1, tr[f].t), ClockAt(c, tr, g + 1, tr[g].t))
  }

  /** Main theorem: whatever happens before g, the clock after g dominates the clock after it. */
  lemma HappensBeforeDominates(c: Config, tr: Trace, m: nat, f: nat, g: nat)
    requires Run(c, tr, m) && f < g < m && HB(tr, f, g)
    requires !tr[f].GlobalFence? && !tr[g].GlobalFence? && tr[f].t < c.threads && tr[g].t < c.threads
    ensures Dominates(c, tr, g, f)
  {
    hide HB, At, Rep, Apply, Enabled, Below, Past, ClockAt, ThreadOps;
    ThreadRepOf(c, tr, g + 1, tr[g].t);
    ThreadOpsBelowLast(tr, g);
    PastIsHB(tr, g, f);
    var clock := ClockAt(c, tr, g + 1, tr[g].t);
    KnowsOne(c, tr, g + 1, clock, ThreadOps(tr, g + 1, tr[g].t), f);
    assert Leq(Known(c, tr, f), clock);
  }

  /** Main theorem: a release fence f, a later store x of its thread, a load l that reads x or its
      release sequence, and a later acquire fence g of the reader: f happens before g, and the
      reader's clock then dominates, in every entry, the clock at f. */
  lemma FenceToFence(c: Config, tr: Trace, m: nat, f: nat, y: nat, l: nat, g: nat)
    requires Run(c, tr, m) && g < m && f < g && l < g
    requires ReleaseFence(tr[f]) && AcquireFence(tr[g]) && tr[l].Load? && tr[l].t == tr[g].t
    requires InSequence(tr, tr[l].a, y, tr[l].k)
    requires f < Mo(tr, tr[l].a)[y] && tr[Mo(tr, tr[l].a)[y]].t == tr[f].t
    ensures tr[f].t < c.threads && tr[g].t < c.threads
    ensures HB(tr, f, g) && Dominates(c, tr, g, f)
  {
    hide Apply, Enabled, Dominates;
    assert Legal(c, tr, f);
    InRangeOf(c, At(c, tr, f), tr[f]);
    assert Legal(c, tr, g);
    InRangeOf(c, At(c, tr, g), tr[g]);
    assert Head(tr, f, Mo(tr, tr[l].a)[y]);
    assert HeadOf(tr, tr[l].a, tr[l].k, f);
    assert Tail(tr, l, g);
    assert SyncsWith(tr, f, g) && Edge(tr, f, g);
    assert HB(tr, f, g);
    HappensBeforeDominates(c, tr, m, f, g);
  }

  /** Main theorem: every seq_cst fence dominates all earlier ones, in every entry of the clock. */
  lemma ScFencesDominate(c: Config, tr: Trace, m: nat, f: nat, g: nat)
    requires Run(c, tr, m) && f < g < m && ScFence(tr[f]) && ScFence(tr[g])
    ensures tr[f].t < c.threads && tr[g].t < c.threads
    ensures HB(tr, f, g) && Dominates(c, tr, g, f)
  {
    hide Apply, Enabled, Dominates;
    assert Legal(c, tr, f);
    InRangeOf(c, At(c, tr, f), tr[f]);
    assert Legal(c, tr, g);
    InRangeOf(c, At(c, tr, g), tr[g]);
    assert Edge(tr, f, g) && HB(tr, f, g);
    HappensBeforeDominates(c, tr, m, f, g);
  }

  /** One side of store buffering: a store, a seq_cst fence and a load, in this order, by one thread. */
  datatype Side = Side(store: nat, fence: nat, load: nat)

  predicate IsSide(tr: Trace, m: nat, s: Side) {
    && s.store < s.fence < s.load < m <= |tr|
    && tr[s.store].Store? && ScFence(tr[s.fence]) && tr[s.load].Load?
    && tr[s.store].t == tr[s.fence].t == tr[s.load].t
  }

  /** The load of side p sees the store of side q, or something newer. */
  ghost predicate Sees(tr: Trace, p: Side, q: Side)
  {
    && p.load < |tr| && q.store < |tr| && tr[p.load].Load? && tr[q.store].Store? && tr[p.load].a == tr[q.store].a
    && forall k :: 0 <= k < |Mo(tr, tr[q.store].a)| && Mo(tr, tr[q.store].a)[k] == q.store ==> k <= tr[p.load].k
  }

  lemma LaterFenceSees(c: Config, tr: Trace, m: nat, p: Side, q: Side)
    requires Run(c, tr, m) && IsSide(tr, m, p) && IsSide(tr, m, q) && q.fence < p.fence
    requires tr[p.load].a == tr[q.store].a
    ensures Sees(tr, p, q)
  {
    hide Apply, Enabled, Mo;
    assert Edge(tr, q.store, q.fence) && HB(tr, q.store, q.fence);
    assert Edge(tr, q.fence, p.fence) && HB(tr, q.fence, p.fence);
    assert Edge(tr, p.fence, p.load) && HB(tr, p.fence, p.load);
    HBTransitive(tr, q.store, q.fence, p.fence);
    HBTransitive(tr, q.store, p.fence, p.load);
    HBForward(tr, q.store, p.load);
    forall k | 0 <= k < |Mo(tr, tr[q.store].a)| && Mo(tr, tr[q.store].a)[k] == q.store
      ensures k <= tr[p.load].k
    {
      assert Touches(tr, q.store, tr[q.store].a, k);
      assert Touches(tr, p.load, tr[p.load].a, tr[p.load].k);
      CoherentOrder(c, tr, m, q.store, p.load, tr[q.store].a, k, tr[p.load].k);
    }
  }

  /** The side whose fence comes last. */
  lemma {:induction false} LastSide(sides: seq<Side>) returns (i: nat)
    requires |sides| > 0
    ensures i < |sides| && forall j :: 0 <= j < |sides| ==> sides[j].fence <= sides[i].fence
  {
    if |sides| == 1 {
      i := 0;
    } else {
      i := LastSide(sides[..|sides| - 1]);
      if sides[i].fence < sides[|sides| - 1].fence {
        i := |sides| - 1;
      }
    }
  }

  /** Main theorem: store buffering with seq_cst fences, for any number of threads. Each side loads the
      atomic that its neighbour stores to; they cannot all miss their neighbour's store. */
  lemma StoreBuffering(c: Config, tr: Trace, m: nat, sides: seq<Side>, next: seq<nat>)
    requires Run(c, tr, m) && |sides| > 0 && |next| == |sides|
    requires forall i, j :: 0 <= i < j < |sides| ==> sides[i].fence != sides[j].fence
    requires forall i :: 0 <= i < |sides| ==>
      next[i] < |sides| && next[i] != i && IsSide(tr, m, sides[i]) && IsSide(tr, m, sides[next[i]])
      && tr[sides[i].load].a == tr[sides[next[i]].store].a
    ensures exists i :: 0 <= i < |sides| && Sees(tr, sides[i], sides[next[i]])
  {
    hide Sees, Apply, Enabled;
    var i := LastSide(sides);
    LaterFenceSees(c, tr, m, sides[i], sides[next[i]]);
  }
}
