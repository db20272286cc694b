/** Lock discipline implies race freedom: a variable that is stored to only by exclusive owners of a
    reader/writer mutex, and loaded only by its owners, never makes the race detector report. */
module LockDiscipline {
  import opened Memory
  import opened HappensBefore
  import opened Races
  import M = RwMutex
  import Sums

  /** A step of the whole program: an operation on the mutex, or anything else that reaches the memory. */
  datatype Move = OnMutex(t: nat, op: M.Op) | OnMemory(e: Event)

  /** A program run: its moves, the mutex with its threads around them, and how much of the trace each has produced. */
  datatype World = World(moves: seq<Move>, systems: seq<M.System>, pos: seq<nat>)

  predicate UsesSync(e: Event, s: nat) {
    (e.SyncAcquire? || e.SyncRelease? || e.SyncAcqRel?) && e.s == s
  }

  predicate Accesses(e: Event, v: nat) {
    (e.VarLoad? || e.VarStore?) && e.v == v
  }

  /** The accessing thread holds the mutex in the way the access needs. */
  predicate Entitled(m: M.Mutex, e: Event)
    requires e.VarLoad? || e.VarStore?
  {
    if e.VarStore? then m.owner == M.Exclusive(e.t) else M.Holds(m, e.t)
  }

  /** Move n: a mutex operation puts its acquire or release of sync variable s into the trace, any other
      move its own event; variable v is accessed by entitled threads only. */
  ghost predicate MoveOk(tr: Trace, w: World, n: nat, s: nat, v: nat) {
    && n < |w.moves| && n + 1 < |w.systems| && n + 1 < |w.pos| && w.pos[n + 1] <= |tr|
    && (match w.moves[n]
        case OnMutex(t, op) =>
          && M.CanDo(w.systems[n], t, op) && w.systems[n + 1] == M.Next(w.systems[n], t, op)
          && (match M.Do(w.systems[n].mutex, t, op).sync
              case NoSync => w.pos[n + 1] == w.pos[n]
              case Acquire => w.pos[n + 1] == w.pos[n] + 1 && tr[w.pos[n]] == SyncAcquire(t, s)
              case Release => w.pos[n + 1] == w.pos[n] + 1 && tr[w.pos[n]] == SyncRelease(t, s))
        case OnMemory(e) =>
          && w.systems[n + 1] == w.systems[n] && w.pos[n + 1] == w.pos[n] + 1 && tr[w.pos[n]] == e
          && !UsesSync(e, s)
          && (Accesses(e, v) ==> Entitled(w.systems[n].mutex, e)))
  }

  /** tr is what a disciplined run of the program does to the memory. */
  ghost predicate Disciplined(c: Config, tr: Trace, w: World, settings: M.Settings, s: nat, v: nat) {
    && |w.systems| == |w.pos| == |w.moves| + 1
    && w.systems[0] == M.Start(settings, c.threads) && w.pos[0] == 0 && w.pos[|w.moves|] == |tr|
    && forall n :: 0 <= n < |w.moves| ==> MoveOk(tr, w, n, s, v)
  }

  /** Thread u releases s after operation i and before position p. */
  ghost predicate ReleasedSince(tr: Trace, i: nat, p: nat, u: nat, s: nat) {
    exists j :: i < j < p && j < |tr| && tr[j] == SyncRelease(u, s)
  }

  /** Operation i is t's own, or its thread released s and t acquired s since then. */
  ghost predicate Known(tr: Trace, i: nat, p: nat, t: nat, s: nat)
    requires i < |tr| && !tr[i].GlobalFence?
  {
    || tr[i].t == t
    || exists j, k :: i < j < k < p && k < |tr| && tr[j] == SyncRelease(tr[i].t, s) && tr[k] == SyncAcquire(t, s)
  }

  ghost predicate Past(tr: Trace, i: nat, p: nat, v: nat) {
    i < p && i < |tr| && Accesses(tr[i], v)
  }

  /** Everyone who accessed v still has the right to, or has released the mutex since. */
  ghost predicate LeftByRelease(tr: Trace, m: M.Mutex, p: nat, s: nat, v: nat) {
    forall i: nat :: Past(tr, i, p, v) ==> Entitled(m, tr[i]) || ReleasedSince(tr, i, p, tr[i].t, s)
  }

  /** An owner knows the accesses that may conflict with its own. */
  ghost predicate OwnersKnow(tr: Trace, m: M.Mutex, p: nat, s: nat, v: nat) {
    && (forall i: nat, t :: Past(tr, i, p, v) && m.owner == M.Exclusive(t) ==> Known(tr, i, p, t, s))
    && (forall i: nat, t :: Past(tr, i, p, v) && tr[i].VarStore? && M.Holds(m, t) ==> Known(tr, i, p, t, s))
  }

  lemma KnownLater(tr: Trace, i: nat, p: nat, q: nat, t: nat, s: nat)
    requires i < |tr| && !tr[i].GlobalFence? && Known(tr, i, p, t, s) && p <= q
    ensures Known(tr, i, q, t, s)
  {
  }

  lemma ReleasedLater(tr: Trace, i: nat, p: nat, q: nat, u: nat, s: nat)
    requires ReleasedSince(tr, i, p, u, s) && p <= q
    ensures ReleasedSince(tr, i, q, u, s)
  {
  }

  /** An acquire right after a release. */
  lemma Handover(tr: Trace, i: nat, p: nat, t: nat, s: nat)
    requires i < p < |tr| && !tr[i].GlobalFence? && ReleasedSince(tr, i, p, tr[i].t, s) && tr[p] == SyncAcquire(t, s)
    ensures Known(tr, i, p + 1, t, s)
  {
    var j :| i < j < p && tr[j] == SyncRelease(tr[i].t, s);
  }

  lemma MemoryMove(tr: Trace, m: M.Mutex, n: nat, p: nat, s: nat, v: nat)
    requires M.Owned(m, n) && p < |tr|
    requires LeftByRelease(tr, m, p, s, v) && OwnersKnow(tr, m, p, s, v)
    requires Accesses(tr[p], v) ==> Entitled(m, tr[p])
    ensures LeftByRelease(tr, m, p + 1, s, v) && OwnersKnow(tr, m, p + 1, s, v)
  {
    M.HoldersCount(m, n);
    hide M.Owned, M.Holds, ReleasedSince, Known;
    forall i: nat | Past(tr, i, p + 1, v)
      ensures Entitled(m, tr[i]) || ReleasedSince(tr, i, p + 1, tr[i].t, s)
    {
      if i < p {
        assert Past(tr, i, p, v);
        if ReleasedSince(tr, i, p, tr[i].t, s) {
          ReleasedLater(tr, i, p, p + 1, tr[i].t, s);
        }
      }
    }
    forall i: nat, t | Past(tr, i, p + 1, v) && (m.owner == M.Exclusive(t) || (tr[i].VarStore? && M.Holds(m, t)))
      ensures Known(tr, i, p + 1, t, s)
    {
      if i < p {
        assert Past(tr, i, p, v);
        KnownLater(tr, i, p, p + 1, t, s);
      } else {
        OwnKnown(tr, m, n, p, t, s);
      }
    }
  }

  lemma OwnKnown(tr: Trace, m: M.Mutex, n: nat, p: nat, t: nat, s: nat)
    requires M.Owned(m, n) && p < |tr| && (tr[p].VarLoad? || tr[p].VarStore?) && Entitled(m, tr[p])
    requires m.owner == M.Exclusive(t) || (tr[p].VarStore? && M.Holds(m, t))
    ensures Known(tr, p, p + 1, t, s)
  {
    M.HoldersCount(m, n);
  }

  /** What the mutex operation put into the trace, from position p on. */
  predicate Emitted(tr: Trace, p: nat, q: nat, t: nat, sync: M.Sync, s: nat) {
    match sync
    case NoSync => q == p
    case Acquire => q == p + 1 && p < |tr| && tr[p] == SyncAcquire(t, s)
    case Release => q == p + 1 && p < |tr| && tr[p] == SyncRelease(t, s)
  }

  /** How rights change in an operation of t. */
  ghost predicate Change(m: M.Mutex, r: M.Mutex, t: nat, sync: M.Sync) {
    && (forall u: nat :: u != t ==>
          (M.Holds(m, u) <==> M.Holds(r, u)) && (m.owner == M.Exclusive(u) <==> r.owner == M.Exclusive(u)))
    && (m.owner == M.Exclusive(t) && r.owner != M.Exclusive(t) ==> sync == M.Release)
    && (M.Holds(m, t) && !M.Holds(r, t) ==> sync == M.Release)
    && (m.owner != M.Exclusive(t) && r.owner == M.Exclusive(t) ==> sync == M.Acquire && forall u: nat :: !M.Holds(m, u))
    && (!M.Holds(m, t) && M.Holds(r, t) ==> sync == M.Acquire && !m.owner.Exclusive?)
  }

  lemma MutexMove(tr: Trace, m: M.Mutex, r: M.Mutex, p: nat, q: nat, t: nat, sync: M.Sync, s: nat, v: nat)
    requires Change(m, r, t, sync) && Emitted(tr, p, q, t, sync, s) && q <= |tr|
    requires LeftByRelease(tr, m, p, s, v) && OwnersKnow(tr, m, p, s, v)
    ensures LeftByRelease(tr, r, q, s, v) && OwnersKnow(tr, r, q, s, v)
  {
    forall i: nat | Past(tr, i, q, v)
      ensures Past(tr, i, p, v)
    {
    }
    hide M.Holds, Known;
    forall i: nat | Past(tr, i, q, v)
      ensures Entitled(r, tr[i]) || ReleasedSince(tr, i, q, tr[i].t, s)
    {
      assert Past(tr, i, p, v);
      if ReleasedSince(tr, i, p, tr[i].t, s) {
        ReleasedLater(tr, i, p, q, tr[i].t, s);
      }
    }
    hide ReleasedSince;
    forall i: nat, u: nat | Past(tr, i, q, v) && (r.owner == M.Exclusive(u) || (tr[i].VarStore? && M.Holds(r, u)))
      ensures Known(tr, i, q, u, s)
    {
      assert Past(tr, i, p, v);
      if m.owner == M.Exclusive(u) || (tr[i].VarStore? && M.Holds(m, u)) {
        KnownLater(tr, i, p, q, u, s);
      } else {
        ExclusiveHolds(m, tr[i]);
        Handover(tr, i, p, u, s);
      }
    }
  }

  lemma ExclusiveHolds(m: M.Mutex, e: Event)
    requires e.VarLoad? || e.VarStore?
    ensures Entitled(m, e) ==> M.Holds(m, e.t)
    ensures Entitled(m, e) && e.VarStore? ==> m.owner.Exclusive?
  {
  }

  lemma Changes(m: M.Mutex, n: nat, t: nat, op: M.Op)
    requires M.Owned(m, n) && t < n && M.PickOk(m, op) && (op.TimeoutExclusive? ==> t in m.exclusiveWait)
    requires op.RetryExclusive? || op.RetryShared? || op.TimeoutExclusive? ==> !M.Holds(m, t)
    ensures Change(m, M.Do(m, t, op).mutex, t, M.Do(m, t, op).sync)
  {
    M.HoldingSyncs(m, n, t, op);
    M.HoldsStep(m, n, t, op);
    M.HoldersCount(m, n);
    hide M.Do, M.Holds, M.Owned;
  }

  ghost predicate GuardInv(tr: Trace, w: World, n: nat, s: nat, v: nat) {
    && n < |w.systems| && n < |w.pos| && w.pos[n] <= |tr|
    && M.Inv(w.systems[n])
    && LeftByRelease(tr, w.systems[n].mutex, w.pos[n], s, v) && OwnersKnow(tr, w.systems[n].mutex, w.pos[n], s, v)
  }

  lemma GuardStep(tr: Trace, w: World, n: nat, s: nat, v: nat)
    requires GuardInv(tr, w, n, s, v) && MoveOk(tr, w, n, s, v)
    ensures GuardInv(tr, w, n + 1, s, v)
  {
    var sys := w.systems[n];
    assert M.Owned(sys.mutex, |sys.pcs|);
    match w.moves[n]
    case OnMemory(e) =>
      hide M.Inv, LeftByRelease, OwnersKnow, M.Owned, Entitled;
      MemoryMove(tr, sys.mutex, |sys.pcs|, w.pos[n], s, v);
    case OnMutex(t, op) =>
      assert sys.pcs[t] != M.Idle ==> !M.Holds(sys.mutex, t);
      hide M.Inv, LeftByRelease, OwnersKnow, M.Owned, M.Do, M.Holds, Change;
      M.InvStep(sys, t, op);
      Changes(sys.mutex, |sys.pcs|, t, op);
      MutexMove(tr, sys.mutex, w.systems[n + 1].mutex, w.pos[n], w.pos[n + 1], t, M.Do(sys.mutex, t, op).sync, s, v);
  }

  lemma GuardStart(c: Config, tr: Trace, w: World, settings: M.Settings, s: nat, v: nat)
    requires Disciplined(c, tr, w, settings, s, v)
    ensures GuardInv(tr, w, 0, s, v)
  {
    Sums.SumNone(c.threads);
  }

  lemma {:induction false} GuardAlways(c: Config, tr: Trace, w: World, settings: M.Settings, s: nat, v: nat, n: nat)
    requires Disciplined(c, tr, w, settings, s, v) && n <= |w.moves|
    ensures GuardInv(tr, w, n, s, v)
  {
    if n == 0 {
      GuardStart(c, tr, w, settings, s, v);
    } else {
      GuardAlways(c, tr, w, settings, s, v, n - 1);
      assert MoveOk(tr, w, n - 1, s, v);
      hide GuardInv, MoveOk;
      GuardStep(tr, w, n - 1, s, v);
    }
  }

  lemma KnownHappensBefore(tr: Trace, i: nat, p: nat, s: nat)
    requires i < p < |tr| && !tr[i].GlobalFence? && !tr[p].GlobalFence? && Known(tr, i, p, tr[p].t, s)
    ensures HB(tr, i, p)
  {
    if tr[i].t == tr[p].t {
      assert Edge(tr, i, p);
    } else {
      var j, k :| i < j < k < p && tr[j] == SyncRelease(tr[i].t, s) && tr[k] == SyncAcquire(tr[p].t, s);
      assert Edge(tr, i, j) && Edge(tr, j, k) && Edge(tr, k, p);
      assert HB(tr, i, j);
      assert HB(tr, i, k);
    }
  }

  /** Every access of v is ordered after all the accesses it conflicts with. */
  lemma DisciplineOrders(c: Config, tr: Trace, w: World, settings: M.Settings, s: nat, v: nat, n: nat)
    requires Disciplined(c, tr, w, settings, s, v) && n < |w.moves| && w.moves[n].OnMemory? && Accesses(w.moves[n].e, v)
    ensures w.pos[n] < |tr| && tr[w.pos[n]] == w.moves[n].e && Ordered(tr, w.pos[n])
  {
    GuardAlways(c, tr, w, settings, s, v, n);
    assert MoveOk(tr, w, n, s, v);
    var p, m := w.pos[n], w.systems[n].mutex;
    hide HB, Known, M.Inv, LeftByRelease;
    forall i | 0 <= i < p && Conflict(tr[i], tr[p])
      ensures HB(tr, i, p)
    {
      assert Past(tr, i, p, v);
      KnownHappensBefore(tr, i, p, s);
    }
  }

  /** Main theorem: under the discipline the detector accepts every store to v, and every load of v that
      comes after some store, whatever else the threads do. */
  lemma DisciplineMeansNoReport(c: Config, tr: Trace, w: World, settings: M.Settings, s: nat, v: nat, n: nat)
    requires Disciplined(c, tr, w, settings, s, v) && n < |w.moves| && w.moves[n].OnMemory? && Accesses(w.moves[n].e, v)
    requires w.pos[n] < |tr| && Run(c, tr, w.pos[n]) && InRange(c, w.moves[n].e)
    requires w.moves[n].e.VarLoad? ==> exists i :: 0 <= i < w.pos[n] && tr[i].VarStore? && tr[i].v == v
    ensures Enabled(c, At(c, tr, w.pos[n]), w.moves[n].e)
  {
    DisciplineOrders(c, tr, w, settings, s, v, n);
    hide Disciplined, Enabled, Ordered;
    if w.moves[n].e.VarStore? {
      StoreAcceptedIffNoRace(c, tr, w.pos[n]);
    } else {
      LoadAcceptedIffNoRace(c, tr, w.pos[n]);
    }
  }
}
