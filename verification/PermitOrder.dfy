/** A post comes before the permits it gives: whatever a thread did before an accepted post happens before whatever a
    thread does that has taken a permit in that post or later. The semaphore composed with the memory. */
module PermitOrder {
  import opened Memory
  import opened HappensBefore
  import S = Semaphore
  import WaitSets

  /** A step of the whole program: an operation of thread t on the semaphore, or anything else that reaches the
      memory. */
  datatype Move = OnSema(t: nat, op: S.Op) | OnMemory(e: Event)

  /** A program run: its moves, the semaphore around them, and how much of the trace each has produced. */
  datatype World = World(moves: seq<Move>, semas: seq<S.Sema>, pos: seq<nat>)

  /** Move n: an operation on the semaphore puts its events on sync variable v into the trace, any other move its
      own. */
  ghost predicate MoveOk(tr: Trace, w: World, n: nat, v: nat) {
    && n < |w.moves| && n + 1 < |w.semas| && n + 1 < |w.pos| && w.pos[n] <= w.pos[n + 1] <= |tr|
    && match w.moves[n]
       case OnSema(t, op) =>
         && S.CanDo(w.semas[n], op) && (!op.Post? ==> op.t == t) && w.semas[n + 1] == S.Next(w.semas[n], op)
         && tr[w.pos[n]..w.pos[n + 1]] == S.Events(w.semas[n], t, op, v)
       case OnMemory(e) =>
         w.semas[n + 1] == w.semas[n] && tr[w.pos[n]..w.pos[n + 1]] == [e]
  }

  /** tr is what the program does to the memory. */
  ghost predicate Produces(tr: Trace, w: World, initial: nat, max: nat, v: nat) {
    && |w.semas| == |w.pos| == |w.moves| + 1
    && w.semas[0] == S.Sema(initial, max, []) && w.pos[0] == 0 && w.pos[|w.moves|] == |tr|
    && forall n :: 0 <= n < |w.moves| ==> MoveOk(tr, w, n, v)
  }

  /** Move n is a post by t that the semaphore takes: the permits fit, or the 32-bit sum has wrapped around and fits. */
  ghost predicate Posts(w: World, n: nat, t: nat) {
    && n < |w.moves| && n < |w.semas| && w.moves[n].OnSema? && w.moves[n].t == t && w.moves[n].op.Post?
    && var (k, s) := (w.moves[n].op.n, w.semas[n]);
       k < S.INT_MAX && (k + s.count <= s.max || S.MODULUS <= k + s.count <= S.MODULUS + s.max)
  }

  /** Thread x takes a permit in move n: it finds one, or a post finds it parked and no longer has it afterwards. */
  ghost predicate Takes(w: World, n: nat, x: nat) {
    && n < |w.moves| && n + 1 < |w.semas| && w.moves[n].OnSema?
    && var op := w.moves[n].op;
       || (op.Wait? && op.t == x && w.semas[n].count > 0)
       || (op.Post? && x in w.semas[n].waiters && x !in w.semas[n + 1].waiters)
  }

  /** Position i of the trace belongs to move n and is an acq_rel of thread t on v. */
  predicate Syncs(tr: Trace, w: World, n: nat, i: nat, t: nat, v: nat) {
    n + 1 < |w.pos| && w.pos[n] <= i < w.pos[n + 1] && i < |tr| && tr[i] == SyncAcqRel(t, v)
  }

  lemma EventAt(tr: Trace, from: nat, to: nat, events: seq<Event>, k: nat)
    requires from <= to <= |tr| && tr[from..to] == events && k < |events|
    ensures from + k < to && tr[from + k] == events[k]
  {
  }

  /** An accepted post begins with the poster's acq_rel. */
  lemma PostSyncs(tr: Trace, w: World, n: nat, t: nat, v: nat)
    requires MoveOk(tr, w, n, v) && Posts(w, n, t) && w.semas[n].max <= S.INT_MAX && w.semas[n].count < S.MODULUS
    ensures Syncs(tr, w, n, w.pos[n], t, v)
  {
    var s, op := w.semas[n], w.moves[n].op;
    S.AcceptedExactly(s, op.n);
    hide S.Accepts, S.HandOff;
    EventAt(tr, w.pos[n], w.pos[n + 1], S.Events(s, t, op, v), 0);
  }

  /** Whoever takes a permit does an acq_rel in that move, in a post after the poster's. */
  lemma TakeSyncs(tr: Trace, w: World, n: nat, x: nat, v: nat) returns (j: nat)
    requires MoveOk(tr, w, n, v) && Takes(w, n, x) && WaitSets.Distinct(w.semas[n].waiters)
    ensures Syncs(tr, w, n, j, x, v) && (w.moves[n].op.Post? ==> w.pos[n] < j)
  {
    var s, t, op := w.semas[n], w.moves[n].t, w.moves[n].op;
    if op.Wait? {
      j := w.pos[n];
      EventAt(tr, w.pos[n], w.pos[n + 1], S.Events(s, t, op, v), 0);
    } else {
      var served := S.HandOff(s.waiters, op.picks, op.n).1;
      S.HandOffKeeps(s.waiters, op.picks, op.n);
      assert x in served;
      hide S.HandOff, S.Accepts, S.PicksOk;
      var k :| 0 <= k < |served| && served[k] == x;
      j := w.pos[n] + 1 + k;
      EventAt(tr, w.pos[n], w.pos[n + 1], S.Events(s, t, op, v), 1 + k);
    }
  }

  lemma {:induction false} PosGrows(tr: Trace, w: World, initial: nat, max: nat, v: nat, n: nat, m: nat)
    requires Produces(tr, w, initial, max, v) && n <= m <= |w.moves|
    ensures w.pos[n] <= w.pos[m]
    decreases m
  {
    if n < m {
      PosGrows(tr, w, initial, max, v, n, m - 1);
      assert MoveOk(tr, w, m - 1, v);
      hide MoveOk;
    }
  }

  /** The semaphore of the program is one that a run reaches. */
  lemma {:induction false} SemaKept(tr: Trace, w: World, initial: nat, max: nat, v: nat, n: nat)
    requires Produces(tr, w, initial, max, v) && n <= |w.moves| && max <= S.INT_MAX && initial < S.MODULUS
    ensures WaitSets.Distinct(w.semas[n].waiters) && w.semas[n].max == max && w.semas[n].count < S.MODULUS
    decreases n
  {
    if n > 0 {
      SemaKept(tr, w, initial, max, v, n - 1);
      assert MoveOk(tr, w, n - 1, v);
      if w.moves[n - 1].OnSema? {
        SemaStep(w.semas[n - 1], w.moves[n - 1].op);
      }
      hide MoveOk;
    }
  }

  lemma SemaStep(s: S.Sema, op: S.Op)
    requires S.CanDo(s, op) && WaitSets.Distinct(s.waiters) && s.count < S.MODULUS
    ensures var r := S.Next(s, op); WaitSets.Distinct(r.waiters) && r.max == s.max && r.count < S.MODULUS
  {
    if op.Post? {
      S.HandOffKeeps(s.waiters, op.picks, op.n);
    }
    hide S.HandOff, S.PicksOk, S.Accepts;
  }

  /** The acq_rel of a post comes before the acq_rel of whoever takes a permit in that post or later. */
  lemma PostThenTake(tr: Trace, w: World, initial: nat, max: nat, v: nat, p: nat, t: nat, q: nat, x: nat)
    returns (i: nat, j: nat)
    requires Produces(tr, w, initial, max, v) && max <= S.INT_MAX && initial < S.MODULUS
    requires p <= q && Posts(w, p, t) && Takes(w, q, x)
    ensures Syncs(tr, w, p, i, t, v) && Syncs(tr, w, q, j, x, v) && i < j && HB(tr, i, j)
  {
    assert MoveOk(tr, w, p, v) && MoveOk(tr, w, q, v);
    SemaKept(tr, w, initial, max, v, p);
    SemaKept(tr, w, initial, max, v, q);
    hide MoveOk, HB;
    PostSyncs(tr, w, p, t, v);
    i := w.pos[p];
    j := TakeSyncs(tr, w, q, x, v);
    if p < q {
      PosGrows(tr, w, initial, max, v, p + 1, q);
    }
    hide Produces;
    AcqRelEdge(tr, i, j, v);
  }

  lemma AcqRelEdge(tr: Trace, i: nat, j: nat, v: nat)
    requires i < j < |tr| && tr[i].SyncAcqRel? && tr[j].SyncAcqRel? && tr[i].s == tr[j].s == v
    ensures HB(tr, i, j)
  {
    assert Edge(tr, i, j);
  }

  /** Main theorem: for every program, whatever else it does: everything that thread t has done before an accepted post
      happens before everything that a thread does after it has taken a permit in that post or later. */
  lemma PostHappensBeforeTake(tr: Trace, w: World, initial: nat, max: nat, v: nat, p: nat, t: nat, q: nat, x: nat,
      a: nat,
                              b: nat)
    requires Produces(tr, w, initial, max, v) && max <= S.INT_MAX && initial < S.MODULUS
    requires p <= q && Posts(w, p, t) && Takes(w, q, x)
    requires a < w.pos[p] && a < |tr| && !tr[a].GlobalFence? && tr[a].t == t
    requires w.pos[q + 1] <= b < |tr| && !tr[b].GlobalFence? && tr[b].t == x
    ensures HB(tr, a, b)
  {
    var i, j := PostThenTake(tr, w, initial, max, v, p, t, q, x);
    hide Produces, Posts, Takes;
    assert Edge(tr, a, i) && HB(tr, a, i);
    assert Edge(tr, j, b) && HB(tr, j, b);
    HBTransitive(tr, a, i, j);
    HBTransitive(tr, a, j, b);
  }
}
