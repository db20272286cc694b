/** Happens-before, defined on the operations of a run without any clock: sequencing
    inside a thread, sync variables, seq_cst fences, and release/acquire through
    release sequences and fences (section 29.8 of ISO C++11). */
module HappensBefore {
  import opened Clocks
  import opened Memory

  type Trace = seq<Event>

  predicate By(e: Event, t: nat) {
    e.GlobalFence? || e.t == t
  }

  /** Sequenced before; the global fence is sequenced with every thread. */
  predicate Sequenced(e: Event, f: Event) {
    e.GlobalFence? || f.GlobalFence? || e.t == f.t
  }

  predicate ReleasesSync(e: Event, s: nat) {
    (e.SyncRelease? || e.SyncAcqRel?) && e.s == s
  }

  predicate AcquiresSync(e: Event, s: nat) {
    (e.SyncAcquire? || e.SyncAcqRel?) && e.s == s
  }

  predicate SyncPair(e: Event, f: Event) {
    (e.SyncRelease? || e.SyncAcqRel?) && AcquiresSync(f, e.s)
  }

  predicate ScFence(e: Event) {
    e.Fence? && e.mo == SeqCst
  }

  predicate ReleaseFence(e: Event) {
    e.Fence? && Releases(e.mo)
  }

  predicate AcquireFence(e: Event) {
    e.Fence? && Acquires(e.mo)
  }

  /** Positions of the first stores to atomic a, in modification order. */
  function Writes(tr: Trace, m: nat, a: nat): (w: seq<nat>)
    requires m <= |tr|
    ensures forall k :: 0 <= k < |w| ==> w[k] < m && tr[w[k]].Store? && tr[w[k]].a == a
    ensures forall j, k :: 0 <= j < k < |w| ==> w[j] < w[k]
  {
    if m == 0 then []
    else if tr[m - 1].Store? && tr[m - 1].a == a then Writes(tr, m - 1, a) + [m - 1]
    else Writes(tr, m - 1, a)
  }

  /** The modification order of atomic a. */
  function Mo(tr: Trace, a: nat): (w: seq<nat>)
    ensures forall k :: 0 <= k < |w| ==> w[k] < |tr| && tr[w[k]].Store? && tr[w[k]].a == a
    ensures forall j, k :: 0 <= j < k < |w| ==> w[j] < w[k]
  {
    Writes(tr, |tr|, a)
  }

  /** The k-th store extends the release sequence that its predecessor is in:
      an RMW, or a store by the thread of the immediately preceding one. */
  predicate Continues(tr: Trace, a: nat, k: nat)
    requires k < |Mo(tr, a)|
  {
    k > 0 && (tr[Mo(tr, a)[k]].rmw || tr[Mo(tr, a)[k]].t == tr[Mo(tr, a)[k - 1]].t)
  }

  /** Store k is in the release sequence that starts at store y. */
  predicate InSequence(tr: Trace, a: nat, y: nat, k: nat) {
    y <= k < |Mo(tr, a)| && forall z :: y < z <= k ==> Continues(tr, a, z)
  }

  /** h is a release operation published by the store at x: x itself, or an earlier release fence of its thread. */
  predicate Head(tr: Trace, h: nat, x: nat) {
    && h <= x < |tr| && tr[x].Store?
    && ((h == x && Releases(tr[x].mo)) || (h < x && ReleaseFence(tr[h]) && tr[h].t == tr[x].t))
  }

  /** h is published by the record (a, k). */
  ghost predicate HeadOf(tr: Trace, a: nat, k: nat, h: nat) {
    exists y: nat :: InSequence(tr, a, y, k) && Head(tr, h, Mo(tr, a)[y])
  }

  /** The read at l is made an acquire by j: by itself, or by a later acquire fence of its thread. */
  predicate Tail(tr: Trace, l: nat, j: nat) {
    && l <= j < |tr| && tr[l].Load?
    && ((l == j && Acquires(tr[l].mo)) || (l < j && AcquireFence(tr[j]) && tr[j].t == tr[l].t))
  }

  ghost predicate SyncsWith(tr: Trace, h: nat, j: nat) {
    exists l: nat :: Tail(tr, l, j) && HeadOf(tr, tr[l].a, tr[l].k, h)
  }

  ghost predicate Edge(tr: Trace, i: nat, j: nat) {
    && i < j < |tr|
    && (Sequenced(tr[i], tr[j]) || SyncPair(tr[i], tr[j]) || (ScFence(tr[i]) && ScFence(tr[j])) || SyncsWith(tr, i, j))
  }

  ghost predicate HB(tr: Trace, i: nat, j: nat)
    decreases j
  {
    j < |tr| && exists k :: i <= k < j && Edge(tr, k, j) && (k == i || HB(tr, i, k))
  }

  lemma {:induction false} HBTransitive(tr: Trace, i: nat, j: nat, k: nat)
    requires HB(tr, i, j) && HB(tr, j, k)
    ensures HB(tr, i, k)
    decreases k
  {
    var x :| j <= x < k && Edge(tr, x, k) && (x == j || HB(tr, j, x));
    if x != j {
      HBTransitive(tr, i, j, x);
    }
    assert HB(tr, i, x);
  }

  // ---- causal pasts

  /** j and everything that happens before it. */
  ghost function Past(tr: Trace, j: nat): (s: set<nat>)
  {
    set i | 0 <= i <= j && (i == j || HB(tr, i, j))
  }

  ghost function Below(tr: Trace, ops: set<nat>): (s: set<nat>)
  {
    set j, i | j in ops && i in Past(tr, j) :: i
  }

  ghost function Preds(tr: Trace, j: nat): (s: set<nat>)
  {
    set k | 0 <= k < j && Edge(tr, k, j)
  }

  lemma BelowUnion(tr: Trace, p: set<nat>, q: set<nat>)
    ensures Below(tr, p + q) == Below(tr, p) + Below(tr, q)
  {
    forall i | i in Below(tr, p + q)
      ensures i in Below(tr, p) + Below(tr, q)
    {
      var j :| j in p + q && i in Past(tr, j);
      assert j in p || j in q;
    }
    forall i | i in Below(tr, p) + Below(tr, q)
      ensures i in Below(tr, p + q)
    {
      if i in Below(tr, p) {
        var j :| j in p && i in Past(tr, j);
        assert j in p + q;
      } else {
        var j :| j in q && i in Past(tr, j);
        assert j in p + q;
      }
    }
  }

  lemma BelowOne(tr: Trace, j: nat)
    requires j < |tr|
    ensures Below(tr, {j}) == Past(tr, j) == {j} + Below(tr, Preds(tr, j))
  {
    forall i | i in Below(tr, {j})
      ensures i in Past(tr, j)
    {
      var k :| k in {j} && i in Past(tr, k);
    }
    forall i | i in Past(tr, j)
      ensures i in Below(tr, {j}) && i in {j} + Below(tr, Preds(tr, j))
    {
      assert j in {j};
      if i != j {
        var k :| i <= k < j && Edge(tr, k, j) && (k == i || HB(tr, i, k));
        assert k in Preds(tr, j) && i in Past(tr, k);
      }
    }
    forall i | i in {j} + Below(tr, Preds(tr, j))
      ensures i in Past(tr, j)
    {
      if i != j {
        var k :| k in Preds(tr, j) && i in Past(tr, k);
        assert Edge(tr, k, j) && (k == i || HB(tr, i, k));
      }
    }
  }

  /** Enlarging a set by what is already below it changes nothing. */
  lemma BelowAbsorbs(tr: Trace, p: set<nat>, q: set<nat>)
    requires forall j :: j in q ==> exists k :: k in p && (j == k || HB(tr, j, k))
    ensures Below(tr, p + q) == Below(tr, p)
  {
    BelowUnion(tr, p, q);
    forall i | i in Below(tr, q)
      ensures i in Below(tr, p)
    {
      var j :| j in q && i in Past(tr, j);
      var k :| k in p && (j == k || HB(tr, j, k));
      if j != k && i != j {
        HBTransitive(tr, i, j, k);
      }
      assert i in Past(tr, k);
    }
  }

  // ---- the operations that feed each clock

  /** What thread t has executed. */
  ghost function ThreadOps(tr: Trace, m: nat, t: nat): set<nat>
  {
    set j | 0 <= j < m && j < |tr| && By(tr[j], t)
  }

  ghost function SyncOps(tr: Trace, m: nat, s: nat): set<nat>
  {
    set j | 0 <= j < m && j < |tr| && ReleasesSync(tr[j], s)
  }

  ghost function ScOps(tr: Trace, m: nat): set<nat>
  {
    set j | 0 <= j < m && j < |tr| && ScFence(tr[j])
  }

  ghost function ReleaseOps(tr: Trace, m: nat, t: nat): set<nat>
  {
    set j | 0 <= j < m && j < |tr| && ReleaseFence(tr[j]) && tr[j].t == t
  }

  /** The release operations published by record (a, k). */
  ghost function Heads(tr: Trace, a: nat, k: nat): set<nat>
  {
    set h | 0 <= h < |tr| && HeadOf(tr, a, k, h)
  }

  /** The read at l does not acquire by itself. */
  predicate RelaxedRead(e: Event, t: nat) {
    e.Load? && e.t == t && !Acquires(e.mo)
  }

  /** The release operations thread t has read without acquiring. */
  ghost function PendingOps(tr: Trace, m: nat, t: nat): set<nat>
  {
    set l, h | 0 <= l < m && l < |tr| && RelaxedRead(tr[l], t) && h in Heads(tr, tr[l].a, tr[l].k) :: h
  }

  lemma {:induction false} WritesPrefix(tr: Trace, m: nat, n: nat, a: nat)
    requires m <= n <= |tr|
    ensures Writes(tr, m, a) <= Writes(tr, n, a)
    decreases n - m
  {
    if m < n {
      WritesPrefix(tr, m, n - 1, a);
    }
  }

  /** The store at m is the next one in modification order. */
  lemma StorePosition(tr: Trace, m: nat)
    requires m < |tr| && tr[m].Store?
    ensures var a := tr[m].a; var k := |Writes(tr, m, a)|;
            k < |Mo(tr, a)| && Mo(tr, a)[k] == m && Mo(tr, a)[..k] == Writes(tr, m, a)
  {
    WritesPrefix(tr, m + 1, |tr|, tr[m].a);
    WritesPrefix(tr, m, |tr|, tr[m].a);
  }

  lemma HeadsFrom(tr: Trace, a: nat, k: nat, h: nat)
    requires k < |Mo(tr, a)| && HeadOf(tr, a, k, h)
    ensures Head(tr, h, Mo(tr, a)[k]) || (k > 0 && Continues(tr, a, k) && HeadOf(tr, a, k - 1, h))
  {
    hide Mo, Head, Continues;
    var y: nat :| InSequence(tr, a, y, k) && Head(tr, h, Mo(tr, a)[y]);
    if y < k {
      assert InSequence(tr, a, y, k - 1);
    }
  }

  lemma HeadsInto(tr: Trace, a: nat, k: nat, h: nat)
    requires k < |Mo(tr, a)|
    requires Head(tr, h, Mo(tr, a)[k]) || (k > 0 && Continues(tr, a, k) && HeadOf(tr, a, k - 1, h))
    ensures HeadOf(tr, a, k, h)
  {
    hide Mo, Head, Continues;
    if Head(tr, h, Mo(tr, a)[k]) {
      assert InSequence(tr, a, k, k);
    } else {
      var y: nat :| InSequence(tr, a, y, k - 1) && Head(tr, h, Mo(tr, a)[y]);
      assert InSequence(tr, a, y, k);
    }
  }

  /** What feeds record k: its own store, and its predecessor's release sequence if it continues it. */
  lemma HeadsStep(tr: Trace, a: nat, k: nat)
    requires k < |Mo(tr, a)|
    ensures Heads(tr, a, k) ==
            (set h | 0 <= h < |tr| && Head(tr, h, Mo(tr, a)[k]))
            + (if k > 0 && Continues(tr, a, k) then Heads(tr, a, k - 1) else {})
  {
    hide Mo, Head, Continues, HeadOf;
    forall h | 0 <= h < |tr|
      ensures HeadOf(tr, a, k, h) <==>
                Head(tr, h, Mo(tr, a)[k]) || (k > 0 && Continues(tr, a, k) && HeadOf(tr, a, k - 1, h))
    {
      if HeadOf(tr, a, k, h) {
        HeadsFrom(tr, a, k, h);
      } else if Head(tr, h, Mo(tr, a)[k]) || (k > 0 && Continues(tr, a, k) && HeadOf(tr, a, k - 1, h)) {
        HeadsInto(tr, a, k, h);
      }
    }
  }
}
