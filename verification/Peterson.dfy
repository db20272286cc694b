/** Peterson's algorithm with a relaxed flag store and an acq_rel exchange, on the modelled memory: loads may
    be stale, and the threads spin without bound. */
module Peterson {
  import opened Clocks
  import opened Memory
  import opened HappensBefore
  import opened Races
  import opened Coherence
  import opened Legality
  import opened Exactness
  import opened Represent

  /** Two threads, flag0, flag1 and turn, and the variable data. */
  predicate Sized(c: Config) {
    c.threads == 2 && c.atomics == 3 && c.vars == 1
  }

  datatype Pc = Begin | Flagged | Exchanging | Spin | Checking | Yielding | Critical | Leaving | Done | Bad

  /** How thread i goes on with operation e, which read v if it is a load. */
  function Advance(i: nat, pc: Pc, e: Event, v: int): Pc
    requires i < 2
  {
    match pc
    case Begin => if e == Store(i, i, Relaxed, false, 1) then Flagged else Bad
    case Flagged => if e.Load? && e.t == i && e.a == 2 && e.mo == AcqRel && e.rmw then Exchanging else Bad
    case Exchanging => if e == Store(i, 2, AcqRel, true, 1 - i) then Spin else Bad
    case Spin =>
      if e.Load? && e.t == i && e.a == 1 - i && e.mo == Acquire && !e.rmw then if v != 0 then Checking else Critical
      else Bad
    case Checking =>
      if e.Load? && e.t == i && e.a == 2 && e.mo == Relaxed && !e.rmw then if v == 1 - i then Yielding else Critical
      else Bad
    case Yielding => if e == Yield(i) then Spin else Bad
    case Critical => if e == VarStore(i, 0) then Leaving else Bad
    case Leaving => if e == Store(i, i, Release, false, 0) then Done else Bad
    case _ => Bad
  }

  /** The value that the load at j reads. */
  function ReadValue(tr: Trace, j: nat): int {
    if j < |tr| && tr[j].Load? && tr[j].k < |Mo(tr, tr[j].a)| then tr[Mo(tr, tr[j].a)[tr[j].k]].value else 0
  }

  /** A thread's place and the positions of its flag store, exchange, data store and final store; -1 if not yet done. */
  datatype Track = Track(pc: Pc, flag: int, turn: int, data: int, reset: int)

  function TrackAt(tr: Trace, i: nat, m: nat): Track
    requires i < 2 && m <= |tr|
  {
    if m <= 4 then Track(Begin, -1, -1, -1, -1)
    else
      var p, e := TrackAt(tr, i, m - 1), tr[m - 1];
      if !By(e, i) then p
      else
        var pc := if e.GlobalFence? then Bad else Advance(i, p.pc, e, ReadValue(tr, m - 1));
        match p.pc
        case Begin => p.(pc := pc, flag := m - 1)
        case Exchanging => p.(pc := pc, turn := m - 1)
        case Critical => p.(pc := pc, data := m - 1)
        case Leaving => p.(pc := pc, reset := m - 1)
        case _ => p.(pc := pc)
  }

  /** before(), run by thread b, and the fence that follows it. */
  predicate Prologue(tr: Trace, b: nat) {
    && |tr| >= 4 && b < 2
    && tr[0] == Store(b, 0, SeqCst, false, 0) && tr[1] == Store(b, 1, SeqCst, false, 0)
    && tr[2] == Store(b, 2, SeqCst, false, 0)
    && tr[3] == GlobalFence
  }

  /** The first m operations are those of the two threads, interleaved; an exchange is not interrupted. */
  ghost predicate Program(tr: Trace, m: nat) {
    && m <= |tr| && (exists b :: Prologue(tr, b))
    && (forall j :: 4 <= j < m ==> !tr[j].GlobalFence? && tr[j].t < 2)
    && (forall i, j :: 0 <= i < 2 && 4 <= j <= m ==> TrackAt(tr, i, j).pc != Bad)
    && (forall i, j :: 0 <= i < 2 && 4 <= j < m && TrackAt(tr, i, j).pc == Exchanging ==> tr[j].t == i)
  }

  // ---- what the tracks say about the trace

  predicate Past(pc: Pc, q: Pc) {
    Rank(pc) > Rank(q)
  }

  function Rank(pc: Pc): nat {
    match pc
    case Begin => 0
    case Flagged => 1
    case Exchanging => 2
    case Spin => 3
    case Checking => 3
    case Yielding => 3
    case Critical => 4
    case Leaving => 5
    case Done => 6
    case Bad => 7
  }

  predicate Positions(tr: Trace, i: nat, m: nat, p: Track)
    requires i < 2
  {
    && p.pc != Bad
    && (if Rank(p.pc) >= 1 then 4 <= p.flag < m <= |tr| && tr[p.flag] == Store(i, i, Relaxed, false, 1)
        else p.flag == -1)
    && (if Rank(p.pc) >= 3 then 0 <= p.flag < p.turn < m <= |tr| && tr[p.turn] == Store(i, 2, AcqRel, true, 1 - i)
        else p.turn == -1)
    && (if Rank(p.pc) >= 5 then 0 <= p.turn < p.data < m <= |tr| && tr[p.data] == VarStore(i, 0) else p.data == -1)
    && (if Rank(p.pc) >= 6 then 0 <= p.data < p.reset < m <= |tr| && tr[p.reset] == Store(i, i, Release, false, 0)
        else p.reset == -1)
    && (p.pc == Exchanging ==>
          0 <= p.flag < m - 1 < |tr| && tr[m - 1].Load? && tr[m - 1].t == i && tr[m - 1].a == 2
            && tr[m - 1].mo == AcqRel && tr[m - 1].rmw)
  }

  lemma {:induction false} PositionsAlways(tr: Trace, i: nat, m: nat)
    requires i < 2 && Program(tr, m) && m >= 4
    ensures Positions(tr, i, m, TrackAt(tr, i, m))
    decreases m
  {
    if m > 4 {
      PositionsAlways(tr, i, m - 1);
      assert TrackAt(tr, i, m).pc != Bad;
    }
  }

  /** The stores to flag i so far. */
  function FlagStores(i: nat, p: Track): seq<int> {
    [i] + (if p.flag >= 0 then [p.flag] else []) + (if p.reset >= 0 then [p.reset] else [])
  }

  function TurnStores(p: Track, q: Track): seq<int> {
    [2] + (if p.turn >= 0 && (q.turn < 0 || p.turn < q.turn) then [p.turn] else [])
        + (if q.turn >= 0 then [q.turn] else [])
        + (if p.turn >= 0 && !(q.turn < 0 || p.turn < q.turn) then [p.turn] else [])
  }

  lemma WritesStep(tr: Trace, m: nat, a: nat)
    requires m < |tr|
    ensures Writes(tr, m + 1, a) == Writes(tr, m, a) + (if tr[m].Store? && tr[m].a == a then [m] else [])
  {
  }

  lemma PrologueWrites(tr: Trace, b: nat)
    requires Prologue(tr, b)
    ensures Writes(tr, 4, 0) == [0] && Writes(tr, 4, 1) == [1] && Writes(tr, 4, 2) == [2]
  {
    forall a | 0 <= a < 3
      ensures Writes(tr, 4, a) == [a]
    {
      WritesStep(tr, 0, a);
      WritesStep(tr, 1, a);
      WritesStep(tr, 2, a);
      WritesStep(tr, 3, a);
    }
  }

  lemma TrackStep(tr: Trace, i: nat, m: nat)
    requires i < 2 && Program(tr, m + 1) && m >= 4
    ensures var p, r, e := TrackAt(tr, i, m), TrackAt(tr, i, m + 1), tr[m];
            && r.pc != Bad && e.t < 2 && !e.GlobalFence?
            && (if e.t != i then r == p else
                && r.pc == Advance(i, p.pc, e, ReadValue(tr, m))
                && r.flag == (if p.pc == Begin then m else p.flag)
                && r.turn == (if p.pc == Exchanging then m else p.turn)
                && r.data == (if p.pc == Critical then m else p.data)
                && r.reset == (if p.pc == Leaving then m else p.reset))
  {
  }

  /** The modification orders so far. */
  ghost predicate Stores(tr: Trace, m: nat)
    requires m <= |tr|
  {
    && Writes(tr, m, 0) == FlagStores(0, TrackAt(tr, 0, m)) && Writes(tr, m, 1) == FlagStores(1, TrackAt(tr, 1, m))
    && Writes(tr, m, 2) == TurnStores(TrackAt(tr, 0, m), TrackAt(tr, 1, m))
  }

  lemma ProgramPrefix(tr: Trace, m: nat)
    requires Program(tr, m + 1) && m >= 4
    ensures Program(tr, m) && tr[m].t < 2 && !tr[m].GlobalFence?
  {
    hide TrackAt;
  }

  /** What thread i's operation at m writes to. */
  lemma WhatIsStored(i: nat, pc: Pc, e: Event, v: int)
    requires i < 2 && !e.GlobalFence? && e.t == i && Advance(i, pc, e, v) != Bad
    ensures pc == Begin || pc == Leaving ==> e.Store? && e.a == i
    ensures pc == Exchanging ==> e.Store? && e.a == 2
    ensures pc != Begin && pc != Leaving && pc != Exchanging ==> !e.Store?
  {
  }

  lemma FlagGrows(tr: Trace, m: nat, i: nat)
    requires i < 2 && Program(tr, m + 1) && m >= 4
    requires Positions(tr, i, m, TrackAt(tr, i, m)) && Writes(tr, m, i) == FlagStores(i, TrackAt(tr, i, m))
    ensures Writes(tr, m + 1, i) == FlagStores(i, TrackAt(tr, i, m + 1))
  {
    TrackStep(tr, i, m);
    TrackStep(tr, 1 - i, m);
    WritesStep(tr, m, i);
    WhatIsStored(tr[m].t, TrackAt(tr, tr[m].t, m).pc, tr[m], ReadValue(tr, m));
    hide TrackAt, Writes, Program, ReadValue, Advance;
  }

  lemma TurnGrows(tr: Trace, m: nat)
    requires Program(tr, m + 1) && m >= 4
    requires Positions(tr, 0, m, TrackAt(tr, 0, m)) && Positions(tr, 1, m, TrackAt(tr, 1, m))
    requires Writes(tr, m, 2) == TurnStores(TrackAt(tr, 0, m), TrackAt(tr, 1, m))
    ensures Writes(tr, m + 1, 2) == TurnStores(TrackAt(tr, 0, m + 1), TrackAt(tr, 1, m + 1))
  {
    TrackStep(tr, 0, m);
    TrackStep(tr, 1, m);
    WritesStep(tr, m, 2);
    WhatIsStored(tr[m].t, TrackAt(tr, tr[m].t, m).pc, tr[m], ReadValue(tr, m));
    hide TrackAt, Writes, Program, ReadValue, Advance;
  }

  lemma StoresStart(tr: Trace)
    requires Program(tr, 4)
    ensures Stores(tr, 4)
  {
    var b :| Prologue(tr, b);
    PrologueWrites(tr, b);
  }

  lemma {:induction false} StoresAlways(tr: Trace, m: nat)
    requires Program(tr, m) && m >= 4
    ensures Stores(tr, m)
    decreases m
  {
    hide Program, Positions, TrackAt, Writes, FlagStores, TurnStores;
    if m == 4 {
      StoresStart(tr);
    } else {
      ProgramPrefix(tr, m - 1);
      StoresAlways(tr, m - 1);
      PositionsAlways(tr, 0, m - 1);
      PositionsAlways(tr, 1, m - 1);
      FlagGrows(tr, m - 1, 0);
      FlagGrows(tr, m - 1, 1);
      TurnGrows(tr, m - 1);
    }
  }

  lemma MoAt(tr: Trace, m: nat, a: nat, k: nat)
    requires m <= |tr| && k < |Writes(tr, m, a)|
    ensures k < |Mo(tr, a)| && Mo(tr, a)[k] == Writes(tr, m, a)[k]
  {
    WritesPrefix(tr, m, |tr|, a);
  }

  /** The record that a legal load reads. */
  lemma LoadRecord(c: Config, tr: Trace, m: nat)
    requires Run(c, tr, m + 1) && tr[m].Load?
    ensures tr[m].k < |Writes(tr, m, tr[m].a)| && tr[m].a < c.atomics && tr[m].t < c.threads
    ensures tr[m].rmw ==> tr[m].k == |Writes(tr, m, tr[m].a)| - 1
  {
    assert Legal(c, tr, m);
    LoadOf(c, At(c, tr, m), tr[m]);
    hide Enabled, Apply, Run;
    HistoryLength(c, tr, m, tr[m].a);
  }

  lemma LoadOf(c: Config, s: State, e: Event)
    requires Typed(c, s) && Enabled(c, s, e) && e.Load?
    ensures InRange(c, e) && e.a < |s.atomics| && e.k < |s.atomics[e.a]| && (e.rmw ==> e.k == |s.atomics[e.a]| - 1)
  {
  }

  /** x and y are the first and the second exchange. */
  predicate Exchanges(tr: Trace, m: nat, x: nat, y: nat) {
    && 4 <= x < y < m <= |tr| && Writes(tr, m, 2) == [2, x, y]
    && tr[x].Store? && tr[x].rmw && tr[x].mo == AcqRel && tr[x].a == 2
    && tr[y].Store? && tr[y].rmw && tr[y].mo == AcqRel && tr[y].a == 2
  }

  /** The second exchange acquires what the first released. */
  lemma ExchangeSyncs(c: Config, tr: Trace, m: nat, x: nat, y: nat)
    requires Run(c, tr, m) && Exchanges(tr, m, x, y)
    ensures x < y - 1 && tr[y - 1].Load? && tr[y - 1].t == tr[y].t && HB(tr, x, y - 1)
  {
    var l := y - 1;
    assert Legal(c, tr, y) && RmwPaired(tr, y);
    assert tr[l].Load? && tr[l].rmw && tr[l].a == 2 && tr[l].mo == AcqRel;
    assert x != l;
    MoAt(tr, m, 2, 1);
    MoAt(tr, m, 2, 2);
    StorePosition(tr, y);
    assert |Writes(tr, y, 2)| == 2;
    WritesStep(tr, l, 2);
    LoadRecord(c, tr, l);
    assert tr[l].k == 1 && Mo(tr, 2)[1] == x;
    hide Mo, Writes, Run, Legal;
    assert Head(tr, x, Mo(tr, 2)[1]) && InSequence(tr, 2, 1, 1);
    assert HeadOf(tr, 2, 1, x);
    assert Tail(tr, l, l);
    assert SyncsWith(tr, x, l);
    assert Edge(tr, x, l);
  }

  /** An operation before the first exchange, in its thread, happens before one after the second, in its thread. */
  lemma AcrossExchanges(c: Config, tr: Trace, m: nat, x: nat, y: nat, f: nat, j: nat)
    requires Run(c, tr, m) && Exchanges(tr, m, x, y) && f < x && y < j < m
    requires !tr[f].GlobalFence? && !tr[j].GlobalFence? && tr[f].t == tr[x].t && tr[j].t == tr[y].t
    ensures HB(tr, f, j)
  {
    ExchangeSyncs(c, tr, m, x, y);
    hide Run, Exchanges;
    assert Edge(tr, f, x) && HB(tr, f, x);
    assert Edge(tr, y - 1, j) && HB(tr, y - 1, j);
    HBTransitive(tr, f, x, y - 1);
    HBTransitive(tr, f, y - 1, j);
  }

  /** The second thread reads the first one's flag as set, until it has been reset. */
  lemma FlagIsSeen(c: Config, tr: Trace, m: nat, a: nat, x: nat, y: nat, f: nat)
    requires Run(c, tr, m + 1) && Exchanges(tr, m + 1, x, y) && y < m && 4 <= f < x
    requires tr[m].Load? && tr[m].a == a && tr[m].t == tr[y].t && !tr[f].GlobalFence? && tr[f].t == tr[x].t
    requires |Writes(tr, m, a)| >= 2 && Writes(tr, m, a)[1] == f && tr[f].Store? && tr[f].a == a
    ensures 1 <= tr[m].k < |Writes(tr, m, a)|
  {
    AcrossExchanges(c, tr, m + 1, x, y, f, m);
    MoAt(tr, m, a, 1);
    LoadRecord(c, tr, m);
    assert Touches(tr, f, a, 1) && Touches(tr, m, a, tr[m].k);
    hide Run, Exchanges, HB, Writes, Mo;
    CoherentOrder(c, tr, m + 1, f, m, a, 1, tr[m].k);
  }

  /** The second thread reads its own value of turn. */
  lemma TurnIsSeen(c: Config, tr: Trace, m: nat, x: nat, y: nat)
    requires Run(c, tr, m + 1) && Exchanges(tr, m, x, y) && tr[m].Load? && tr[m].a == 2 && tr[m].t == tr[y].t
    ensures tr[m].k == 2 && ReadValue(tr, m) == tr[y].value
  {
    MoAt(tr, m, 2, 2);
    LoadRecord(c, tr, m);
    assert Touches(tr, y, 2, 2) && Touches(tr, m, 2, tr[m].k);
    assert Edge(tr, y, m) && HB(tr, y, m);
    hide Run, HB, Writes, Mo;
    CoherentOrder(c, tr, m + 1, y, m, 2, 2, tr[m].k);
  }

  // ---- mutual exclusion

  /** The two tracks, the first to exchange first, tell where the stores are. */
  lemma Layout(tr: Trace, m: nat, i: nat)
    requires i < 2 && Program(tr, m) && m >= 4
    requires 0 <= TrackAt(tr, i, m).turn < TrackAt(tr, 1 - i, m).turn
    ensures var p, q := TrackAt(tr, i, m), TrackAt(tr, 1 - i, m);
            && Positions(tr, i, m, p) && Positions(tr, 1 - i, m, q)
            && Exchanges(tr, m, p.turn, q.turn) && Writes(tr, m, i) == FlagStores(i, p)
            && 4 <= p.flag < p.turn && tr[p.turn].t == i && tr[q.turn].t == 1 - i && tr[p.flag].t == i
            && tr[q.turn].value == i
  {
    PositionsAlways(tr, 0, m);
    PositionsAlways(tr, 1, m);
    StoresAlways(tr, m);
    hide TrackAt, Writes, Program;
  }

  /** What the second thread's load in its loop tells it. */
  lemma SecondReads(c: Config, tr: Trace, m: nat, i: nat)
    requires Run(c, tr, m + 1) && i < 2 && Program(tr, m + 1) && m >= 4 && tr[m].Load? && tr[m].t == 1 - i
    requires 0 <= TrackAt(tr, i, m).turn < TrackAt(tr, 1 - i, m).turn
    ensures tr[m].a == 2 ==> ReadValue(tr, m) == i
    ensures tr[m].a == i && ReadValue(tr, m) == 0 ==>
              var r := TrackAt(tr, i, m).reset; 4 <= r < m && tr[m].k < |Mo(tr, i)| && Mo(tr, i)[tr[m].k] == r
  {
    ProgramPrefix(tr, m);
    Layout(tr, m, i);
    var p, q := TrackAt(tr, i, m), TrackAt(tr, 1 - i, m);
    hide TrackAt, Program;
    if tr[m].a == 2 {
      TurnIsSeen(c, tr, m, p.turn, q.turn);
    } else if tr[m].a == i {
      ExchangesLater(tr, m, p.turn, q.turn);
      FlagIsSeen(c, tr, m, i, p.turn, q.turn, p.flag);
      MoAt(tr, m, i, tr[m].k);
      hide Run, Exchanges, Writes, Mo;
    }
  }

  lemma ExchangesLater(tr: Trace, m: nat, x: nat, y: nat)
    requires m < |tr| && Exchanges(tr, m, x, y) && tr[m].Load?
    ensures Exchanges(tr, m + 1, x, y)
  {
    WritesStep(tr, m, 2);
  }

  /** Thread o has done something after operation d in happens-before. */
  ghost predicate Knows(tr: Trace, d: nat, m: nat, o: nat) {
    exists j :: 4 <= j < m && j < |tr| && !tr[j].GlobalFence? && tr[j].t == o && HB(tr, d, j)
  }

  /** If the second thread has left its loop, the first one has been through, and the second knows it. */
  ghost predicate FirstIsOut(tr: Trace, i: nat, m: nat)
    requires i < 2 && m <= |tr|
  {
    var p, q := TrackAt(tr, i, m), TrackAt(tr, 1 - i, m);
    0 <= p.turn < q.turn && Rank(q.pc) >= 4 ==> p.pc == Done && 0 <= p.data && Knows(tr, p.data, m, 1 - i)
  }

  /** The load that ends the second thread's loop acquires the first one's final store. */
  lemma LoopEnds(tr: Trace, m: nat, d: nat, r: nat, a: nat, k: nat, o: nat)
    requires 4 <= d < r < m < |tr| && tr[m] == Load(o, a, k, Acquire, false) && k < |Mo(tr, a)| && Mo(tr, a)[k] == r
    requires !tr[d].GlobalFence? && tr[r].Store? && tr[r].mo == Release && tr[d].t == tr[r].t
    ensures Knows(tr, d, m + 1, o)
  {
    assert Head(tr, r, Mo(tr, a)[k]) && InSequence(tr, a, k, k);
    assert HeadOf(tr, a, k, r);
    assert Tail(tr, m, m);
    assert SyncsWith(tr, r, m);
    assert Edge(tr, r, m) && HB(tr, r, m);
    assert Edge(tr, d, r) && HB(tr, d, r);
    hide Mo, HeadOf, Edge;
    HBTransitive(tr, d, r, m);
  }

  lemma KnowsLater(tr: Trace, d: nat, m: nat, o: nat)
    requires Knows(tr, d, m, o)
    ensures Knows(tr, d, m + 1, o)
  {
  }

  lemma {:induction false} FirstIsOutAlways(c: Config, tr: Trace, i: nat, m: nat)
    requires i < 2 && Run(c, tr, m) && Program(tr, m) && m >= 4
    ensures FirstIsOut(tr, i, m)
    decreases m
  {
    if m == 4 {
      assert Rank(TrackAt(tr, 1 - i, 4).pc) == 0;
    } else {
      ProgramPrefix(tr, m - 1);
      FirstIsOutAlways(c, tr, i, m - 1);
      FirstIsOutStep(c, tr, i, m - 1);
    }
  }

  lemma FirstIsOutStep(c: Config, tr: Trace, i: nat, m: nat)
    requires i < 2 && Run(c, tr, m + 1) && Program(tr, m + 1) && Program(tr, m) && m >= 4 && FirstIsOut(tr, i, m)
    ensures FirstIsOut(tr, i, m + 1)
  {
    var p, q := TrackAt(tr, i, m), TrackAt(tr, 1 - i, m);
    TrackStep(tr, i, m);
    TrackStep(tr, 1 - i, m);
    PositionsAlways(tr, 0, m);
    PositionsAlways(tr, 1, m);
    var p', q' := TrackAt(tr, i, m + 1), TrackAt(tr, 1 - i, m + 1);
    if 0 <= p'.turn < q'.turn && Rank(q'.pc) >= 4 {
      hide TrackAt, Program, Knows, Run;
      assert p.turn == p'.turn && q.turn == q'.turn;
      if Rank(q.pc) >= 4 {
        KnowsLater(tr, p.data, m, 1 - i);
      } else {
        SecondReads(c, tr, m, i);
        assert tr[m].a == i && ReadValue(tr, m) == 0;
        LoopEnds(tr, m, p.data, p.reset, i, tr[m].k, 1 - i);
      }
    }
  }

  predicate InSection(pc: Pc) {
    pc == Critical || pc == Leaving
  }

  /** Main theorem: no run has both threads between the end of the loop and the final store. */
  lemma MutualExclusion(c: Config, tr: Trace, m: nat)
    requires Run(c, tr, m) && Program(tr, m) && m >= 4
    ensures !(InSection(TrackAt(tr, 0, m).pc) && InSection(TrackAt(tr, 1, m).pc))
  {
    FirstIsOutAlways(c, tr, 0, m);
    FirstIsOutAlways(c, tr, 1, m);
    PositionsAlways(tr, 0, m);
    PositionsAlways(tr, 1, m);
    var p, q := TrackAt(tr, 0, m), TrackAt(tr, 1, m);
    if InSection(p.pc) && InSection(q.pc) {
      TurnsDiffer(tr, m);
    }
    hide TrackAt, Program, Run, Knows;
  }

  lemma TurnsDiffer(tr: Trace, m: nat)
    requires Program(tr, m) && m >= 4
    ensures var p, q := TrackAt(tr, 0, m), TrackAt(tr, 1, m); p.turn >= 0 && q.turn >= 0 ==> p.turn != q.turn
  {
    PositionsAlways(tr, 0, m);
    PositionsAlways(tr, 1, m);
    hide TrackAt, Program;
  }

  lemma PrologueHasNoData(tr: Trace, j: nat)
    requires Program(tr, 4) && j < 4
    ensures !tr[j].VarStore? && !tr[j].VarLoad?
  {
    var b :| Prologue(tr, b);
    assert j == 0 || j == 1 || j == 2 || j == 3;
  }

  lemma DataIsOwn(tr: Trace, m: nat)
    requires Program(tr, m + 1) && m >= 4 && (tr[m].VarStore? || tr[m].VarLoad?)
    ensures tr[m].t < 2 && tr[m].VarStore? && TrackAt(tr, tr[m].t, m + 1).data == m
  {
    ProgramPrefix(tr, m);
    TrackStep(tr, tr[m].t, m);
    hide TrackAt, Program;
  }

  lemma DataStays(tr: Trace, m: nat, i: nat)
    requires i < 2 && Program(tr, m + 1) && m >= 4 && TrackAt(tr, i, m).data >= 0
    ensures TrackAt(tr, i, m + 1).data == TrackAt(tr, i, m).data
  {
    ProgramPrefix(tr, m);
    TrackStep(tr, i, m);
    PositionsAlways(tr, i, m);
    hide TrackAt, Program;
  }

  /** The stores to data are those of the two threads. */
  lemma {:induction false} DataStores(tr: Trace, m: nat, j: nat)
    requires Program(tr, m) && m >= 4 && j < m && (tr[j].VarStore? || tr[j].VarLoad?)
    ensures 4 <= j && tr[j].VarStore? && tr[j].t < 2 && TrackAt(tr, tr[j].t, m).data == j
    decreases m
  {
    assert m <= |tr|;
    hide TrackAt, Program;
    if m == 4 {
      PrologueHasNoData(tr, j);
    } else {
      ProgramPrefix(tr, m - 1);
      if j < m - 1 {
        DataStores(tr, m - 1, j);
        DataStays(tr, m - 1, tr[j].t);
      } else {
        DataIsOwn(tr, m - 1);
      }
    }
  }

  /** Main theorem: when a thread is about to store to data, the detector accepts it. */
  lemma NoRaceReported(c: Config, tr: Trace, m: nat, o: nat)
    requires Sized(c) && Run(c, tr, m) && Program(tr, m) && 4 <= m < |tr| && o < 2
    requires TrackAt(tr, o, m).pc == Critical && tr[m] == VarStore(o, 0)
    ensures Enabled(c, At(c, tr, m), tr[m])
  {
    forall j | 0 <= j < m && Conflict(tr[j], tr[m])
      ensures HB(tr, j, m)
    {
      DataStores(tr, m, j);
      OtherIsBefore(c, tr, m, o, j);
    }
    hide Run, Program, TrackAt, Enabled;
    StoreAcceptedIffNoRace(c, tr, m);
  }

  lemma OtherIsBefore(c: Config, tr: Trace, m: nat, o: nat, d: nat)
    requires Run(c, tr, m) && Program(tr, m) && 4 <= m < |tr| && o < 2 && 4 <= d < m
    requires TrackAt(tr, o, m).pc == Critical && tr[m] == VarStore(o, 0)
    requires tr[d].VarStore? && tr[d].t < 2 && TrackAt(tr, tr[d].t, m).data == d
    ensures HB(tr, d, m)
  {
    var i := tr[d].t;
    assert m <= |tr|;
    hide TrackAt, Program, Run;
    PositionsAlways(tr, 0, m);
    PositionsAlways(tr, 1, m);
    assert i == 1 - o;
    TurnsDiffer(tr, m);
    FirstIsOutAlways(c, tr, i, m);
    FirstIsOutAlways(c, tr, o, m);
    var j :| 4 <= j < m && !tr[j].GlobalFence? && tr[j].t == o && HB(tr, d, j);
    assert Edge(tr, j, m) && HB(tr, j, m);
    HBTransitive(tr, d, j, m);
  }

  // ---- getting in

  /** The value that the memory holds in the record that the load at m reads. */
  lemma ReadIsMemory(c: Config, tr: Trace, m: nat)
    requires Run(c, tr, m + 1) && tr[m].Load?
    ensures tr[m].a < c.atomics && tr[m].k < |At(c, tr, m).atomics[tr[m].a]|
    ensures At(c, tr, m).atomics[tr[m].a][tr[m].k].value == ReadValue(tr, m)
  {
    LoadRecord(c, tr, m);
    InvAlways(c, tr, m);
    HistoryLength(c, tr, m, tr[m].a);
    assert HistoryRep(c, tr, m, At(c, tr, m).atomics[tr[m].a], tr[m].a);
    assert RecordRep(c, tr, m, At(c, tr, m).atomics[tr[m].a][tr[m].k], tr[m].a, tr[m].k);
    hide Run, At, Rep;
  }

  /** Main theorem: both conditions of the loop count. A thread whose flag load reads 0 is in the critical section right
      after that load, one that reads anything else looks at turn, and enters right after that unless it reads that it
      has to wait. */
  lemma LoopGoesOnBothOnly(c: Config, tr: Trace, m: nat, i: nat)
    requires Sized(c) && Run(c, tr, m + 1) && Program(tr, m + 1) && m >= 4 && i < 2 && tr[m].t == i
    requires TrackAt(tr, i, m).pc == Spin || TrackAt(tr, i, m).pc == Checking
    ensures tr[m].Load? && tr[m].a < c.atomics && tr[m].k < |At(c, tr, m).atomics[tr[m].a]|
    ensures tr[m].a == if TrackAt(tr, i, m).pc == Spin then 1 - i else 2
    ensures var v := At(c, tr, m).atomics[tr[m].a][tr[m].k].value;
            && (TrackAt(tr, i, m).pc == Spin ==> (InSection(TrackAt(tr, i, m + 1).pc) <==> v == 0))
            && (TrackAt(tr, i, m).pc == Checking ==> (InSection(TrackAt(tr, i, m + 1).pc) <==> v != 1 - i))
            && (!InSection(TrackAt(tr, i, m + 1).pc) ==>
                  TrackAt(tr, i, m + 1).pc == if TrackAt(tr, i, m).pc == Spin then Checking else Yielding)
  {
    ProgramPrefix(tr, m);
    TrackStep(tr, i, m);
    hide TrackAt, Program, Run, ReadValue, At;
    ReadIsMemory(c, tr, m);
  }

  /** What thread i does next if it always reads the newest record. */
  function Newest(tr: Trace, m: nat, i: nat): Event
    requires i < 2 && m <= |tr|
  {
    match TrackAt(tr, i, m).pc
    case Begin => Store(i, i, Relaxed, false, 1)
    case Flagged => Load(i, 2, Last(tr, m, 2), AcqRel, true)
    case Exchanging => Store(i, 2, AcqRel, true, 1 - i)
    case Spin => Load(i, 1 - i, Last(tr, m, 1 - i), Acquire, false)
    case Checking => Load(i, 2, Last(tr, m, 2), Relaxed, false)
    case Critical => VarStore(i, 0)
    case Leaving => Store(i, i, Release, false, 0)
    case _ => Yield(i)
  }

  function Last(tr: Trace, m: nat, a: nat): nat
    requires m <= |tr|
  {
    if |Writes(tr, m, a)| > 0 then |Writes(tr, m, a)| - 1 else 0
  }

  /** Peterson's algorithm on a memory that is never stale: p is the thread's track and q the other's. */
  function Follow(p: Track, q: Track, m: nat): Track {
    match p.pc
    case Begin => p.(pc := Flagged, flag := m)
    case Flagged => p.(pc := Exchanging)
    case Exchanging => p.(pc := Spin, turn := m)
    case Spin => p.(pc := if q.flag >= 0 && q.reset < 0 then Checking else Critical)
    case Checking => p.(pc := if p.turn > q.turn then Yielding else Critical)
    case Yielding => p.(pc := Spin)
    case Critical => p.(pc := Leaving, data := m)
    case Leaving => p.(pc := Done, reset := m)
    case _ => p
  }

  lemma LastFlag(tr: Trace, m: nat, i: nat)
    requires i < 2 && Program(tr, m) && m >= 4
    ensures var p := TrackAt(tr, i, m);
            && |Writes(tr, m, i)| > 0 && Last(tr, m, i) < |Mo(tr, i)|
            && tr[Mo(tr, i)[Last(tr, m, i)]].value == if p.flag >= 0 && p.reset < 0 then 1 else 0
  {
    StoresAlways(tr, m);
    PositionsAlways(tr, i, m);
    PrologueValues(tr);
    assert Writes(tr, m, i) == FlagStores(i, TrackAt(tr, i, m));
    MoAt(tr, m, i, Last(tr, m, i));
    hide TrackAt, Program, Writes, Mo;
  }

  lemma PrologueValues(tr: Trace)
    requires |tr| >= 4 && exists b :: Prologue(tr, b)
    ensures tr[0].Store? && tr[1].Store? && tr[2].Store? && tr[0].value == tr[1].value == tr[2].value == 0
  {
  }

  lemma LastTurn(tr: Trace, m: nat, i: nat)
    requires i < 2 && Program(tr, m) && m >= 4 && Rank(TrackAt(tr, i, m).pc) >= 3
    ensures var p, q := TrackAt(tr, i, m), TrackAt(tr, 1 - i, m);
            && |Writes(tr, m, 2)| > 0 && Last(tr, m, 2) < |Mo(tr, 2)|
            && tr[Mo(tr, 2)[Last(tr, m, 2)]].value == if p.turn > q.turn then 1 - i else i
  {
    StoresAlways(tr, m);
    PositionsAlways(tr, 0, m);
    PositionsAlways(tr, 1, m);
    TurnsDiffer(tr, m);
    assert Writes(tr, m, 2) == TurnStores(TrackAt(tr, 0, m), TrackAt(tr, 1, m));
    MoAt(tr, m, 2, Last(tr, m, 2));
    hide TrackAt, Program, Writes, Mo;
  }

  lemma TurnWritten(tr: Trace, m: nat)
    requires Program(tr, m) && m >= 4
    ensures |Writes(tr, m, 2)| > 0
  {
    StoresAlways(tr, m);
    hide TrackAt, Program, Writes;
  }

  /** The next operation that reads the newest record is legal: nothing is ever reported, nobody is ever stuck. */
  lemma NewestIsLegal(c: Config, tr: Trace, m: nat, i: nat)
    requires Sized(c) && Run(c, tr, m) && Program(tr, m) && 4 <= m < |tr| && i < 2
    requires TrackAt(tr, i, m).pc != Done && TrackAt(tr, 1 - i, m).pc != Exchanging && tr[m] == Newest(tr, m, i)
    ensures Legal(c, tr, m)
  {
    PositionsAlways(tr, i, m);
    LastFlag(tr, m, 1 - i);
    TurnWritten(tr, m);
    hide Run, Program, TrackAt, Enabled, At, Writes, Mo;
    match TrackAt(tr, i, m).pc
    case Begin => StoresTakeEffect(c, tr, m);
    case Flagged => NewestIsReadable(c, tr, m);
    case Exchanging => StoresTakeEffect(c, tr, m);
    case Spin => NewestIsReadable(c, tr, m);
    case Checking => NewestIsReadable(c, tr, m);
    case Critical => NoRaceReported(c, tr, m, i);
    case Leaving => StoresTakeEffect(c, tr, m);
    case Yielding => NeverRefused(c, tr, m);
  }

  /** Where the operation leads. */
  lemma NewestFollows(tr: Trace, m: nat, i: nat)
    requires Program(tr, m) && 4 <= m < |tr| && i < 2
    requires TrackAt(tr, i, m).pc != Done && TrackAt(tr, 1 - i, m).pc != Exchanging && tr[m] == Newest(tr, m, i)
    ensures TrackAt(tr, i, m + 1) == Follow(TrackAt(tr, i, m), TrackAt(tr, 1 - i, m), m)
    ensures TrackAt(tr, 1 - i, m + 1) == TrackAt(tr, 1 - i, m)
  {
    LastFlag(tr, m, 1 - i);
    if Rank(TrackAt(tr, i, m).pc) >= 3 {
      LastTurn(tr, m, i);
    }
    assert TrackAt(tr, i, m).pc != Bad;
    TrackUnfold(tr, i, m);
    TrackUnfold(tr, 1 - i, m);
    hide TrackAt, Program, Mo, Last, Writes;
  }

  lemma TrackUnfold(tr: Trace, i: nat, m: nat)
    requires i < 2 && 4 <= m < |tr| && !tr[m].GlobalFence?
    ensures var p, r, e := TrackAt(tr, i, m), TrackAt(tr, i, m + 1), tr[m];
            r == if e.t != i then p else
                 Track(Advance(i, p.pc, e, ReadValue(tr, m)), if p.pc == Begin then m else p.flag,
                       if p.pc == Exchanging then m else p.turn, if p.pc == Critical then m else p.data,
                       if p.pc == Leaving then m else p.reset)
  {
    hide Advance, ReadValue;
  }

  lemma ProgramGoesOn(tr: Trace, m: nat, i: nat)
    requires Program(tr, m) && 4 <= m < |tr| && i < 2 && !tr[m].GlobalFence? && tr[m].t == i
    requires TrackAt(tr, 1 - i, m).pc != Exchanging
    requires TrackAt(tr, 0, m + 1).pc != Bad && TrackAt(tr, 1, m + 1).pc != Bad
    ensures Program(tr, m + 1)
  {
    hide TrackAt;
    forall o, j | 0 <= o < 2 && 4 <= j <= m + 1
      ensures TrackAt(tr, o, j).pc != Bad
    {
      if j == m + 1 {
        assert o == 0 || o == 1;
      }
    }
  }

  /** Main theorem: a thread that has not finished is never stuck, whatever has been read before: unless the other
      one is in the middle of its exchange, the operation that reads the newest record is legal, is not reported,
      and leads where Peterson's algorithm goes on a memory without stale reads. */
  lemma NobodyIsStuck(c: Config, tr: Trace, m: nat, i: nat)
    requires Sized(c) && Run(c, tr, m) && Program(tr, m) && 4 <= m < |tr| && i < 2
    requires TrackAt(tr, i, m).pc != Done && TrackAt(tr, 1 - i, m).pc != Exchanging && tr[m] == Newest(tr, m, i)
    ensures Run(c, tr, m + 1) && Program(tr, m + 1)
    ensures TrackAt(tr, i, m + 1) == Follow(TrackAt(tr, i, m), TrackAt(tr, 1 - i, m), m)
    ensures TrackAt(tr, 1 - i, m + 1) == TrackAt(tr, 1 - i, m)
  {
    NewestIs(tr, m, i);
    hide TrackAt, Program, Last, Newest, Legal, Run;
    NewestIsLegal(c, tr, m, i);
    RunGrows(c, tr, m);
    NewestFollows(tr, m, i);
    FollowIsGood(TrackAt(tr, i, m), TrackAt(tr, 1 - i, m), m);
    hide Follow;
    ProgramGoesOn(tr, m, i);
  }

  lemma NewestIs(tr: Trace, m: nat, i: nat)
    requires i < 2 && m <= |tr|
    ensures var e := Newest(tr, m, i); !e.GlobalFence? && e.t == i
    ensures Program(tr, m) && m >= 4 ==> TrackAt(tr, i, m).pc != Bad && TrackAt(tr, 1 - i, m).pc != Bad
  {
    hide TrackAt, Last;
  }

  lemma FollowIsGood(p: Track, q: Track, m: nat)
    requires p.pc != Bad
    ensures Follow(p, q, m).pc != Bad
  {
  }

  /** Main theorem: once the other thread is out, a thread that is in its loop and reads the newest record gets in,
      is not reported, and gets out. */
  lemma LastThreadFinishes(c: Config, tr: Trace, m: nat, i: nat)
    requires Sized(c) && Run(c, tr, m) && Program(tr, m) && 4 <= m && m + 3 <= |tr| && i < 2
    requires TrackAt(tr, 1 - i, m).pc == Done && TrackAt(tr, i, m).pc == Spin
    requires tr[m] == Load(i, 1 - i, Last(tr, m, 1 - i), Acquire, false)
    requires tr[m + 1] == VarStore(i, 0) && tr[m + 2] == Store(i, i, Release, false, 0)
    ensures Run(c, tr, m + 3) && Program(tr, m + 3) && TrackAt(tr, i, m + 3).pc == Done == TrackAt(tr, 1 - i, m + 3).pc
  {
    hide TrackAt, Program, Run, Last;
    OutsideIsSeen(c, tr, m, i);
    CriticalGoesOut(c, tr, m + 1, i);
  }

  lemma OutsideIsSeen(c: Config, tr: Trace, m: nat, i: nat)
    requires Sized(c) && Run(c, tr, m) && Program(tr, m) && 4 <= m < |tr| && i < 2
    requires TrackAt(tr, 1 - i, m).pc == Done && TrackAt(tr, i, m).pc == Spin
    requires tr[m] == Load(i, 1 - i, Last(tr, m, 1 - i), Acquire, false)
    ensures Run(c, tr, m + 1) && Program(tr, m + 1) && TrackAt(tr, i, m + 1).pc == Critical
    ensures TrackAt(tr, 1 - i, m + 1) == TrackAt(tr, 1 - i, m)
  {
    hide TrackAt, Program, Run, Last;
    OutHasReset(tr, m, 1 - i);
    NobodyIsStuck(c, tr, m, i);
  }

  lemma OutHasReset(tr: Trace, m: nat, i: nat)
    requires Program(tr, m) && m >= 4 && i < 2 && TrackAt(tr, i, m).pc == Done
    ensures TrackAt(tr, i, m).flag >= 0 && TrackAt(tr, i, m).reset >= 0
  {
    PositionsAlways(tr, i, m);
    hide TrackAt, Program;
  }

  lemma CriticalGoesOut(c: Config, tr: Trace, m: nat, i: nat)
    requires Sized(c) && Run(c, tr, m) && Program(tr, m) && 4 <= m && m + 2 <= |tr| && i < 2
    requires TrackAt(tr, 1 - i, m).pc != Exchanging && TrackAt(tr, i, m).pc == Critical
    requires tr[m] == VarStore(i, 0) && tr[m + 1] == Store(i, i, Release, false, 0)
    ensures Run(c, tr, m + 2) && Program(tr, m + 2) && TrackAt(tr, i, m + 2).pc == Done
    ensures TrackAt(tr, 1 - i, m + 2) == TrackAt(tr, 1 - i, m)
  {
    hide TrackAt, Program, Run, Last;
    NobodyIsStuck(c, tr, m, i);
    NobodyIsStuck(c, tr, m + 1, i);
  }

  // ---- a run with contention

  /** Both threads set their flags and exchange; thread 1, the second, goes round its loop once; thread 0 goes through;
      thread 1 goes through. */
  function Contention(): Trace {
    [Store(0, 0, SeqCst, false, 0), Store(0, 1, SeqCst, false, 0), Store(0, 2, SeqCst, false, 0), GlobalFence,
     Store(0, 0, Relaxed, false, 1), Store(1, 1, Relaxed, false, 1),
     Load(0, 2, 0, AcqRel, true), Store(0, 2, AcqRel, true, 1), Load(1, 2, 1, AcqRel, true),
       Store(1, 2, AcqRel, true, 0),
     Load(1, 0, 1, Acquire, false), Load(1, 2, 2, Relaxed, false), Yield(1),
     Load(0, 1, 1, Acquire, false), Load(0, 2, 2, Relaxed, false), VarStore(0, 0), Store(0, 0, Release, false, 0),
     Load(1, 0, 2, Acquire, false), VarStore(1, 0), Store(1, 1, Release, false, 0)]
  }

  function TwoThreads(): Config {
    Config(2, 0, 3, 1, 1)
  }

  lemma TrackStarts(tr: Trace)
    requires |tr| >= 4
    ensures TrackAt(tr, 0, 4) == TrackAt(tr, 1, 4) == Track(Begin, -1, -1, -1, -1)
  {
  }

  lemma ContentionStarts()
    ensures Run(TwoThreads(), Contention(), 4) && Program(Contention(), 4)
    ensures TrackAt(Contention(), 0, 4) == TrackAt(Contention(), 1, 4) == Track(Begin, -1, -1, -1, -1)
  {
    var c, tr := TwoThreads(), Contention();
    assert |tr| == 20;
    hide *;
    TrackStarts(tr);
    ContentionProgram();
    RunStarts(c, tr);
    StoreLegal(0);
    RunGrows(c, tr, 0);
    StoreLegal(1);
    RunGrows(c, tr, 1);
    StoreLegal(2);
    RunGrows(c, tr, 2);
    FenceLegal();
    RunGrows(c, tr, 3);
  }

  lemma ContentionProgram()
    ensures Program(Contention(), 4)
  {
    assert Prologue(Contention(), 0);
    TrackStarts(Contention());
    hide Prologue, TrackAt;
  }

  lemma StoreLegal(m: nat)
    requires m < 3 && Run(TwoThreads(), Contention(), m)
    ensures Legal(TwoThreads(), Contention(), m)
  {
    hide Run, Legal;
    StoresTakeEffect(TwoThreads(), Contention(), m);
  }

  lemma FenceLegal()
    requires Run(TwoThreads(), Contention(), 3)
    ensures Legal(TwoThreads(), Contention(), 3)
  {
    hide Run, Legal;
    NeverRefused(TwoThreads(), Contention(), 3);
  }

  /** The run of Contention after m operations, with these tracks. */
  ghost predicate Stands(m: nat, p: Track, q: Track) {
    var c, tr := TwoThreads(), Contention();
    4 <= m <= |tr| && Run(c, tr, m) && Program(tr, m) && TrackAt(tr, 0, m) == p && TrackAt(tr, 1, m) == q
  }

  /** The position of the newest store. */
  function NewestOf(p: Track, q: Track, a: nat): nat {
    match a
    case 0 => (if p.flag >= 0 then 1 else 0) + (if p.reset >= 0 then 1 else 0)
    case 1 => (if q.flag >= 0 then 1 else 0) + (if q.reset >= 0 then 1 else 0)
    case _ => (if p.turn >= 0 then 1 else 0) + (if q.turn >= 0 then 1 else 0)
  }

  lemma LastIs(tr: Trace, m: nat, a: nat)
    requires Program(tr, m) && m >= 4 && a < 3
    ensures Last(tr, m, a) == NewestOf(TrackAt(tr, 0, m), TrackAt(tr, 1, m), a)
  {
    StoresAlways(tr, m);
    hide TrackAt, Program, Writes;
  }

  /** The operation of Newest, by the tracks. */
  function Op(i: nat, p: Track, q: Track): Event
    requires i < 2
  {
    match (if i == 0 then p else q).pc
    case Begin => Store(i, i, Relaxed, false, 1)
    case Flagged => Load(i, 2, NewestOf(p, q, 2), AcqRel, true)
    case Exchanging => Store(i, 2, AcqRel, true, 1 - i)
    case Spin => Load(i, 1 - i, NewestOf(p, q, 1 - i), Acquire, false)
    case Checking => Load(i, 2, NewestOf(p, q, 2), Relaxed, false)
    case Critical => VarStore(i, 0)
    case Leaving => Store(i, i, Release, false, 0)
    case _ => Yield(i)
  }

  lemma ThreadZero(m: nat, p: Track, q: Track)
    requires Stands(m, p, q) && m < |Contention()| && p.pc != Done && q.pc != Exchanging
             && Contention()[m] == Op(0, p, q)
    ensures Stands(m + 1, Follow(p, q, m), q)
  {
    var tr := Contention();
    LastIs(tr, m, 1);
    LastIs(tr, m, 2);
    hide TrackAt, Program, Run, Contention, Last, NewestOf, Follow;
    assert Op(0, p, q) == Newest(tr, m, 0);
    NobodyIsStuck(TwoThreads(), tr, m, 0);
  }

  lemma ThreadOne(m: nat, p: Track, q: Track)
    requires Stands(m, p, q) && m < |Contention()| && q.pc != Done && p.pc != Exchanging
             && Contention()[m] == Op(1, p, q)
    ensures Stands(m + 1, p, Follow(q, p, m))
  {
    var tr := Contention();
    LastIs(tr, m, 0);
    LastIs(tr, m, 2);
    hide TrackAt, Program, Run, Contention, Last, NewestOf, Follow;
    assert Op(1, p, q) == Newest(tr, m, 1);
    NobodyIsStuck(TwoThreads(), tr, m, 1);
  }

  lemma BothFlag()
    ensures Stands(6, Track(Flagged, 4, -1, -1, -1), Track(Flagged, 5, -1, -1, -1))
  {
    var none := Track(Begin, -1, -1, -1, -1);
    assert Stands(4, none, none) by {
      ContentionStarts();
      hide Run, Program, TrackAt, Contention;
    }
    hide Stands;
    ThreadZero(4, none, none);
    ThreadOne(5, Track(Flagged, 4, -1, -1, -1), none);
  }

  lemma BothExchange()
    ensures Stands(10, Track(Spin, 4, 7, -1, -1), Track(Spin, 5, 9, -1, -1))
  {
    var one := Track(Flagged, 5, -1, -1, -1);
    BothFlag();
    hide Stands;
    ThreadZero(6, Track(Flagged, 4, -1, -1, -1), one);
    ThreadZero(7, Track(Exchanging, 4, -1, -1, -1), one);
    ThreadOne(8, Track(Spin, 4, 7, -1, -1), one);
    ThreadOne(9, Track(Spin, 4, 7, -1, -1), Track(Exchanging, 5, -1, -1, -1));
  }

  /** Thread 1 goes round its loop, and thread 0 gets in. */
  lemma FirstGetsIn()
    ensures Stands(15, Track(Critical, 4, 7, -1, -1), Track(Spin, 5, 9, -1, -1))
  {
    var p, q := Track(Spin, 4, 7, -1, -1), Track(Spin, 5, 9, -1, -1);
    BothExchange();
    hide Stands;
    ThreadOne(10, p, q);
    ThreadOne(11, p, Track(Checking, 5, 9, -1, -1));
    ThreadOne(12, p, Track(Yielding, 5, 9, -1, -1));
    ThreadZero(13, p, q);
    ThreadZero(14, Track(Checking, 4, 7, -1, -1), q);
  }

  lemma SecondGetsIn()
    ensures Stands(20, Track(Done, 4, 7, 15, 16), Track(Done, 5, 9, 18, 19))
  {
    var p, q := Track(Done, 4, 7, 15, 16), Track(Spin, 5, 9, -1, -1);
    FirstGetsIn();
    hide Stands;
    ThreadZero(15, Track(Critical, 4, 7, -1, -1), q);
    ThreadZero(16, Track(Leaving, 4, 7, 15, -1), q);
    ThreadOne(17, p, q);
    ThreadOne(18, p, Track(Critical, 5, 9, -1, -1));
    ThreadOne(19, p, Track(Leaving, 5, 9, 18, -1));
  }

  /** Both threads can get through, with contention: the second exchanger waits once and enters when it reads that the
      first one's flag has been reset. */
  lemma BothGetThrough()
    ensures var c, tr := TwoThreads(), Contention();
            Sized(c) && Run(c, tr, 20) && Program(tr, 20) && TrackAt(tr, 0, 20).pc == Done == TrackAt(tr, 1, 20).pc
  {
    SecondGetsIn();
    hide Run, Program, TrackAt;
  }
}
