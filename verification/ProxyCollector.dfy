/** The proxy collector: regions are installed one after the other at the head; whoever needs protection
    acquires the current one; a region is destroyed when its own acquirers and those of all earlier regions
    have released. Sequentially consistent interleaving, one shared access per step, any number of threads. */
module ProxyCollector {

  datatype Link = None | Some(k: nat)

  /** Bookkeeping: who is replacing the region as head, and whether that is done. */
  datatype Mutation = NotYet | By(t: nat) | Added

  /** Bookkeeping: whether a thread has taken it upon itself to destroy the region. */
  datatype Status = Alive | Dying(t: nat) | Destroyed

  /** One installation of a region: its address and its `next` anchor, and what happened to it. Pointers are
      installation numbers; the same address may be installed again once it has been destroyed. */
  datatype Region = Region(addr: nat, rc: int, next: Link,
                           acquired: nat, released: nat, pred: bool, mutation: Mutation, status: Status)

  datatype Pc =
    | Idle
    // acquire
    | AcqLoad
    | AcqCas(rc: int, r: nat)
    // mutate
    | MutLoad(a: nat)
    | MutCas(a: nat, rc: int, r: nat)
    | LinkLoad(r: nat, c: int)
    | LinkCas(r: nat, c: int, rc2: int, next2: Link)
    | MutAdd(r: nat, c: int)
    // sys_dtor
    | WalkLoad(h: nat, tail: nat)
    | Walk(h: nat, tail: nat, next: nat)
    | CutLoad(h: nat, tail: nat)
    | CutStore(h: nat, tail: nat, rc: int)
    | Kill(k: nat, tail: nat, reset: bool)

  /** The head anchor is (headRc, the last installed region). Address 0 is that of stub_region. */
  datatype State = State(headRc: int, regions: seq<Region>, pcs: seq<Pc>, fault: bool)

  datatype Choice = Acquire | Release(k: nat) | Mutate(a: nat) | Weak(fails: bool)

  function Start(n: nat): State {
    State(0, [Region(0, 0, None, 0, 0, false, NotYet, Alive)], seq(n, t => Idle), false)
  }

  function Last(s: State): int {
    |s.regions| - 1
  }

  // ---- steps

  function Go(s: State, t: nat, pc: Pc): State
    requires t < |s.pcs|
  {
    s.(pcs := s.pcs[t := pc])
  }

  function Fault(s: State): State {
    s.(fault := true)
  }

  /** The region may be accessed. */
  predicate Live(s: State, k: nat) {
    k < |s.regions| && s.regions[k].status != Destroyed
  }

  function PutRegion(s: State, k: nat, g: Region): State
    requires k < |s.regions|
  {
    s.(regions := s.regions[k := g])
  }

  /** The comparison in a compare-exchange of head: count and address. */
  predicate HeadIs(s: State, rc: int, r: nat) {
    |s.regions| > 0 && r < |s.regions| && s.headRc == rc && s.regions[Last(s)].addr == s.regions[r].addr
  }

  function Step(s: State, t: nat, c: Choice): (r: State)
    requires t < |s.pcs| && |s.regions| > 0
    ensures |r.pcs| == |s.pcs| && |r.regions| >= |s.regions|
  {
    match s.pcs[t]
    case Idle => Begin(s, t, c)
    case AcqLoad => Go(s, t, AcqCas(s.headRc, Last(s)))
    case AcqCas(rc, r) =>
      if c == Weak(true) || !HeadIs(s, rc, r) then Go(s, t, AcqCas(s.headRc, Last(s))) else DoAcquire(s, t)
    case MutLoad(a) => Go(s, t, MutCas(a, s.headRc, Last(s)))
    case MutCas(a, rc, r) =>
      if c == Weak(true) || !HeadIs(s, rc, r) then Go(s, t, MutCas(a, s.headRc, Last(s))) else Install(s, t, a)
    case LinkLoad(r, n) =>
      if !Live(s, r) then Fault(s) else Go(s, t, LinkCas(r, n, s.regions[r].rc, s.regions[r].next))
    case LinkCas(r, n, rc2, next2) =>
      if !Live(s, r) then Fault(s)
      else if c == Weak(true) || s.regions[r].rc != rc2 || s.regions[r].next != next2 then
        Go(s, t, LinkCas(r, n, s.regions[r].rc, s.regions[r].next))
      else Go(PutRegion(s, r, s.regions[r].(next := Some(r + 1))), t, MutAdd(r, n))
    case MutAdd(r, n) => if !Live(s, r) then Fault(s) else Add(s, t, r, n)
    case WalkLoad(h, tail) =>
      if !Live(s, tail) then Fault(s)
      else Go(s, t, if s.regions[tail].next == None then CutLoad(h, tail) else Walk(h, tail, s.regions[tail].next.k))
    case Walk(h, tail, next) => if !Live(s, next) then Fault(s) else Drop(s, t, h, next, tail)
    case CutLoad(h, tail) => if !Live(s, tail) then Fault(s) else Go(s, t, CutStore(h, tail, s.regions[tail].rc))
    case CutStore(h, tail, rc) =>
      if !Live(s, tail) then Fault(s)
      else Go(PutRegion(s, tail, s.regions[tail].(rc := rc, next := None)), t, Kill(h, tail, false))
    case Kill(k, tail, reset) => if !Live(s, k) || s.regions[k].rc != 1 then Fault(s) else Destroy(s, t, k, tail, reset)
  }

  /** mutate is called with a region that is not installed, and never with stub_region. */
  predicate Available(s: State, a: nat) {
    && a != 0
    && (forall k :: 0 <= k < |s.regions| && s.regions[k].addr == a ==> s.regions[k].status == Destroyed)
    && forall u :: 0 <= u < |s.pcs| ==> !Pending(s.pcs[u], a)
  }

  /** The thread is going to install address a. */
  predicate Pending(pc: Pc, a: nat) {
    || (pc.MutLoad? && pc.a == a)
    || (pc.MutCas? && pc.a == a)
    || (pc.Kill? && pc.reset && a == 0)
  }

  function Begin(s: State, t: nat, c: Choice): State
    requires t < |s.pcs|
  {
    match c
    case Acquire => Go(s, t, AcqLoad)
    case Mutate(a) => if Available(s, a) then Go(s, t, MutLoad(a)) else s
    case Release(k) =>
      if k < |s.regions| && s.regions[k].released < s.regions[k].acquired then DoRelease(s, t, k) else s
    case Weak(_) => s
  }

  function DoAcquire(s: State, t: nat): State
    requires t < |s.pcs| && |s.regions| > 0
  {
    var g := s.regions[Last(s)];
    Go(PutRegion(s, Last(s), g.(acquired := g.acquired + 1)).(headRc := s.headRc + 2), t, Idle)
  }

  /** release: fetch_sub(2), and destroy if that leaves 1. */
  function DoRelease(s: State, t: nat, k: nat): State
    requires t < |s.pcs| && k < |s.regions|
  {
    if !Live(s, k) then Fault(s)
    else
      var g := s.regions[k];
      var g' := g.(rc := g.rc - 2, released := g.released + 1);
      if g.rc == 3 then Go(PutRegion(s, k, g'.(status := Dying(t))), t, WalkLoad(k, k))
      else Go(PutRegion(s, k, g'), t, Idle)
  }

  /** The compare-exchange of mutate: a new region with the predecessor's reference of 2 becomes the head. */
  function Install(s: State, t: nat, a: nat): State
    requires t < |s.pcs| && |s.regions| > 0
  {
    var r := Last(s);
    var was := PutRegion(s, r, s.regions[r].(mutation := By(t)));
    Go(was.(regions := was.regions + [Region(a, 2, None, 0, 0, true, NotYet, Alive)], headRc := 0), t,
      LinkLoad(r, s.headRc))
  }

  /** fetch_add(c + 1), and destroy if that leaves 1. */
  function Add(s: State, t: nat, r: nat, n: int): State
    requires t < |s.pcs| && r < |s.regions|
  {
    var g := s.regions[r];
    var g' := g.(rc := g.rc + n + 1, mutation := Added);
    if g.rc == -n then Go(PutRegion(s, r, g'.(status := Dying(t))), t, WalkLoad(r, r))
    else Go(PutRegion(s, r, g'), t, Idle)
  }

  /** sys_dtor takes the predecessor's reference from the next region, and goes on with it if that leaves 1. */
  function Drop(s: State, t: nat, h: nat, k: nat, tail: nat): State
    requires t < |s.pcs| && k < |s.regions|
  {
    var g := s.regions[k];
    var g' := g.(rc := g.rc - 2, pred := false);
    if g.rc == 3 then Go(PutRegion(s, k, g'.(status := Dying(t))), t, WalkLoad(h, k))
    else Go(PutRegion(s, k, g'), t, CutLoad(h, tail))
  }

  /** The region is the thread's own by now; stub_region is not deleted but installed again at the end. */
  function Destroy(s: State, t: nat, k: nat, tail: nat, reset: bool): State
    requires t < |s.pcs| && k < |s.regions|
  {
    var g := s.regions[k];
    var reset' := reset || g.addr == 0;
    var pc := if g.next.Some? then Kill(g.next.k, tail, reset') else if reset' then MutLoad(0) else Idle;
    Go(PutRegion(s, k, g.(status := Destroyed)), t, pc)
  }

  // ---- the invariant

  /** Nobody will need the region any more: it has been replaced, its predecessor is gone, and its acquirers have
      released. */
  predicate Ready(g: Region) {
    g.mutation == Added && !g.pred && g.released == g.acquired
  }

  predicate Counted(g: Region) {
    && g.released <= g.acquired
    && g.rc == (if g.pred then 2 else 0) - 2 * g.released + (if g.mutation == Added then 2 * g.acquired + 1 else 0)
    && (g.status != Alive <==> Ready(g))
  }

  /** The thread is destroying region k, among others. */
  predicate Covers(pc: Pc, k: nat) {
    || ((pc.WalkLoad? || pc.Walk? || pc.CutLoad? || pc.CutStore?) && pc.h <= k <= pc.tail)
    || (pc.Kill? && pc.k <= k <= pc.tail)
  }

  predicate Replaces(pc: Pc, k: nat) {
    (pc.LinkLoad? || pc.LinkCas? || pc.MutAdd?) && pc.r == k
  }

  /** The thread is about to take the predecessor's reference from region k + 1. */
  predicate AtEdge(pc: Pc, k: nat) {
    (pc.WalkLoad? || pc.Walk?) && pc.tail == k
  }

  predicate ByWhom(s: State, k: nat)
    requires k < |s.regions|
  {
    var g := s.regions[k];
    && (g.status.Dying? ==> g.status.t < |s.pcs| && Covers(s.pcs[g.status.t], k))
    && (g.mutation.By? ==> g.mutation.t < |s.pcs| && Replaces(s.pcs[g.mutation.t], k))
    && (g.mutation == NotYet <==> k == Last(s))
    && (g.mutation == Added && g.status == Alive ==> g.next == Some(k + 1))
  }

  /** The predecessor's reference is dropped only, and always, by the thread that destroys the predecessor. */
  predicate InOrder(s: State, k: nat)
    requires k < |s.regions|
  {
    var g := s.regions[k];
    && (!g.pred ==> k == 0 || s.regions[k - 1].status != Alive)
    && (g.pred ==> k > 0 && (s.regions[k - 1].status != Alive ==>
                               s.regions[k - 1].status.Dying? && s.regions[k - 1].status.t < |s.pcs|
                               && AtEdge(s.pcs[s.regions[k - 1].status.t], k - 1)))
  }

  predicate RegionInv(s: State, k: nat)
    requires k < |s.regions|
  {
    Counted(s.regions[k]) && ByWhom(s, k) && InOrder(s, k)
  }

  /** Regions h to tail are being destroyed by t, and linked. */
  predicate Owned(regions: seq<Region>, h: nat, tail: nat, t: nat) {
    && h <= tail < |regions|
    && (forall k :: h <= k <= tail ==> regions[k].status == Dying(t))
    && forall k :: h <= k < tail ==> regions[k].next == Some(k + 1)
  }

  predicate Knows(regions: seq<Region>, t: nat, pc: Pc) {
    match pc
    case AcqCas(_, r) => r < |regions|
    case MutCas(_, _, r) => r < |regions|
    case LinkLoad(r, c) => r < |regions| && regions[r].mutation == By(t) && c == 2 * regions[r].acquired
    case LinkCas(r, c, _, _) => r < |regions| && regions[r].mutation == By(t) && c == 2 * regions[r].acquired
    case MutAdd(r, c) =>
      r < |regions| && regions[r].mutation == By(t) && c == 2 * regions[r].acquired && regions[r].next == Some(r + 1)
    case WalkLoad(h, tail) =>
      Owned(regions, h, tail, t) && tail + 1 < |regions| && regions[tail + 1].pred
        && regions[tail].next == Some(tail + 1)
    case Walk(h, tail, next) =>
      Owned(regions, h, tail, t) && next == tail + 1 < |regions| && regions[next].pred
        && regions[tail].next == Some(next)
    case CutLoad(h, tail) => Owned(regions, h, tail, t)
    case CutStore(h, tail, rc) => Owned(regions, h, tail, t) && rc == regions[tail].rc
    case Kill(k, tail, _) => Owned(regions, k, tail, t) && regions[tail].next == None
    case _ => true
  }

  predicate Inv(s: State) {
    && !s.fault && |s.regions| > 0 && s.headRc == 2 * s.regions[Last(s)].acquired
    && (forall k :: 0 <= k < |s.regions| ==> RegionInv(s, k))
    && (forall t :: 0 <= t < |s.pcs| ==> Knows(s.regions, t, s.pcs[t]))
  }

  // ---- the other threads

  /** A step of another thread leaves alone what t relies on in region g. */
  predicate Mild(g: Region, g': Region, t: nat) {
    && (g.mutation == By(t) ==> g'.mutation == By(t) && g'.next == g.next && g'.acquired == g.acquired)
    && (g.status == Dying(t) ==> g' == g)
  }

  lemma OtherKnows(regions: seq<Region>, regions': seq<Region>, t: nat, pc: Pc)
    requires Knows(regions, t, pc) && |regions| <= |regions'|
    requires forall k :: 0 <= k < |regions| ==> Mild(regions[k], regions'[k], t)
    requires forall k :: 0 < k < |regions| && regions[k].pred && regions[k - 1].status == Dying(t) ==> regions'[k].pred
    ensures Knows(regions', t, pc)
  {
  }

  /** The thread's next place still covers what it has taken on, except for region k. */
  ghost predicate Continues(pc: Pc, pc': Pc, k: int) {
    && (forall j: nat :: Covers(pc, j) && j != k ==> Covers(pc', j))
    && (forall j: nat :: Replaces(pc, j) && j != k ==> Replaces(pc', j))
    && (forall j: nat :: AtEdge(pc, j) && j + 1 != k && j != k ==> AtEdge(pc', j))
  }

  lemma RegionKept(s: State, r: State, t: nat, k: nat, j: nat)
    requires Inv(s) && t < |s.pcs| == |r.pcs| && r.pcs == s.pcs[t := r.pcs[t]]
    requires k < |s.regions| == |r.regions|
             && (forall i :: 0 <= i < |s.regions| && i != k ==> r.regions[i] == s.regions[i])
    requires Continues(s.pcs[t], r.pcs[t], k) && j < |s.regions| && j != k
    ensures Counted(r.regions[j]) && ByWhom(r, j) && (j != k + 1 ==> InOrder(r, j))
  {
    assert RegionInv(s, j);
    hide Counted, Knows, Covers, Replaces, AtEdge, Inv;
  }

  lemma FinishOne(s: State, r: State, t: nat, k: nat)
    requires Inv(s) && t < |s.pcs| == |r.pcs| && r.pcs == s.pcs[t := r.pcs[t]] && !r.fault
    requires k < |s.regions| == |r.regions|
             && (forall i :: 0 <= i < |s.regions| && i != k ==> r.regions[i] == s.regions[i])
    requires r.headRc == 2 * r.regions[Last(r)].acquired
    requires Continues(s.pcs[t], r.pcs[t], k)
    requires RegionInv(r, k) && (k + 1 < |s.regions| ==> InOrder(r, k + 1))
    requires Knows(r.regions, t, r.pcs[t])
    requires forall u :: 0 <= u < |s.pcs| && u != t ==> Mild(s.regions[k], r.regions[k], u)
    requires s.regions[k].pred && !r.regions[k].pred && k > 0 ==> s.regions[k - 1].status == Dying(t)
    ensures Inv(r)
  {
    forall j | 0 <= j < |r.regions|
      ensures RegionInv(r, j)
    {
      if j != k {
        RegionKept(s, r, t, k, j);
      }
    }
    hide Counted, RegionInv, Knows, Continues;
    forall u | 0 <= u < |s.pcs|
      ensures Knows(r.regions, u, r.pcs[u])
    {
      if u != t {
        assert Knows(s.regions, u, s.pcs[u]);
        OtherKnows(s.regions, r.regions, u, s.pcs[u]);
      }
    }
  }

  /** A step that changes nothing but the thread's place. */
  lemma FinishNone(s: State, t: nat, pc: Pc)
    requires Inv(s) && t < |s.pcs| && Knows(s.regions, t, pc) && Continues(s.pcs[t], pc, -1)
    ensures Inv(Go(s, t, pc))
  {
    var r := Go(s, t, pc);
    hide Counted, Knows, Covers, Replaces, AtEdge;
    forall j | 0 <= j < |r.regions|
      ensures RegionInv(r, j)
    {
      assert RegionInv(s, j);
    }
  }

  // ---- the steps keep the invariant

  lemma KeepsBegin(s: State, t: nat, c: Choice)
    requires Inv(s) && t < |s.pcs| && s.pcs[t] == Idle && !c.Release?
    ensures Inv(Begin(s, t, c))
  {
    hide Inv, Available;
    match c
    case Acquire => FinishNone(s, t, AcqLoad);
    case Mutate(a) =>
      if Available(s, a) {
        FinishNone(s, t, MutLoad(a));
      }
    case _ =>
  }

  lemma KeepsRelease(s: State, t: nat, k: nat)
    requires Inv(s) && t < |s.pcs| && s.pcs[t] == Idle && k < |s.regions|
             && s.regions[k].released < s.regions[k].acquired
    ensures Inv(DoRelease(s, t, k))
  {
    var r := DoRelease(s, t, k);
    assert RegionInv(s, k);
    if k + 1 < |s.regions| {
      assert RegionInv(s, k + 1);
    }
    hide Inv;
    LastCount(s);
    FinishOne(s, r, t, k);
  }

  lemma LastCount(s: State)
    requires Inv(s)
    ensures |s.regions| > 0 && !s.fault && s.headRc == 2 * s.regions[Last(s)].acquired
  {
  }

  lemma KeepsAcquire(s: State, t: nat, c: Choice)
    requires Inv(s) && t < |s.pcs| && (s.pcs[t].AcqLoad? || s.pcs[t].AcqCas?)
    ensures Inv(Step(s, t, c))
  {
    LastCount(s);
    if s.pcs[t].AcqLoad? || c == Weak(true) || !HeadIs(s, s.pcs[t].rc, s.pcs[t].r) {
      hide Inv;
      FinishNone(s, t, AcqCas(s.headRc, Last(s)));
    } else {
      assert RegionInv(s, Last(s));
      hide Inv;
      FinishOne(s, DoAcquire(s, t), t, Last(s));
    }
  }

  lemma KeepsMutLoad(s: State, t: nat, c: Choice)
    requires Inv(s) && t < |s.pcs| && (s.pcs[t].MutLoad? || s.pcs[t].MutCas?)
    requires s.pcs[t].MutCas? ==> c == Weak(true) || !HeadIs(s, s.pcs[t].rc, s.pcs[t].r)
    ensures Inv(Step(s, t, c))
  {
    LastCount(s);
    hide Inv;
    FinishNone(s, t, MutCas(s.pcs[t].a, s.headRc, Last(s)));
  }

  /** Appending a region changes nothing for the others. */
  lemma KeepsInstall(s: State, t: nat)
    requires Inv(s) && t < |s.pcs| && s.pcs[t].MutCas?
    ensures Inv(Install(s, t, s.pcs[t].a))
  {
    var r, k := Install(s, t, s.pcs[t].a), Last(s);
    assert RegionInv(s, k);
    hide Covers, AtEdge;
    forall j | 0 <= j < |r.regions|
      ensures RegionInv(r, j)
    {
      if j < k {
        assert RegionInv(s, j);
      }
    }
    forall u | 0 <= u < |s.pcs|
      ensures Knows(r.regions, u, r.pcs[u])
    {
      if u != t {
        assert Knows(s.regions, u, s.pcs[u]);
        OtherKnows(s.regions, r.regions, u, s.pcs[u]);
      }
    }
  }

  lemma KnowsOf(s: State, t: nat)
    requires Inv(s) && t < |s.pcs|
    ensures Knows(s.regions, t, s.pcs[t])
  {
  }

  lemma RegionOf(s: State, k: nat)
    requires Inv(s) && k < |s.regions|
    ensures RegionInv(s, k)
  {
  }

  lemma KeepsLink(s: State, t: nat, c: Choice)
    requires Inv(s) && t < |s.pcs| && (s.pcs[t].LinkLoad? || s.pcs[t].LinkCas?)
    ensures Inv(Step(s, t, c))
  {
    hide Inv;
    LastCount(s);
    KnowsOf(s, t);
    var k := s.pcs[t].r;
    RegionOf(s, k);
    if k + 1 < |s.regions| {
      RegionOf(s, k + 1);
    }
    var r := Step(s, t, c);
    if r.pcs[t].LinkCas? {
      FinishNone(s, t, r.pcs[t]);
    } else {
      FinishOne(s, r, t, k);
    }
  }

  lemma KeepsAdd(s: State, t: nat, c: Choice)
    requires Inv(s) && t < |s.pcs| && s.pcs[t].MutAdd?
    ensures Inv(Step(s, t, c))
  {
    hide Inv;
    LastCount(s);
    KnowsOf(s, t);
    var k := s.pcs[t].r;
    RegionOf(s, k);
    assert k + 1 < |s.regions|;
    RegionOf(s, k + 1);
    FinishOne(s, Step(s, t, c), t, k);
  }

  lemma KeepsWalkLoad(s: State, t: nat, c: Choice)
    requires Inv(s) && t < |s.pcs| && s.pcs[t].WalkLoad?
    ensures Inv(Step(s, t, c))
  {
    hide Inv;
    LastCount(s);
    KnowsOf(s, t);
    FinishNone(s, t, Walk(s.pcs[t].h, s.pcs[t].tail, s.pcs[t].tail + 1));
  }

  lemma KeepsDrop(s: State, t: nat, c: Choice)
    requires Inv(s) && t < |s.pcs| && s.pcs[t].Walk?
    ensures Inv(Step(s, t, c))
  {
    hide Inv, Destroy, Install, Add, DoAcquire, DoRelease, Begin;
    LastCount(s);
    KnowsOf(s, t);
    var k := s.pcs[t].next;
    RegionOf(s, k);
    RegionOf(s, k - 1);
    assert s.regions[k].mutation != NotYet ==> k + 1 < |s.regions|;
    if k + 1 < |s.regions| {
      RegionOf(s, k + 1);
    }
    FinishOne(s, Step(s, t, c), t, k);
  }

  lemma KeepsCut(s: State, t: nat, c: Choice)
    requires Inv(s) && t < |s.pcs| && (s.pcs[t].CutLoad? || s.pcs[t].CutStore?)
    ensures Inv(Step(s, t, c))
  {
    hide Inv;
    LastCount(s);
    KnowsOf(s, t);
    var k := s.pcs[t].tail;
    RegionOf(s, k);
    if k + 1 < |s.regions| {
      RegionOf(s, k + 1);
    }
    var r := Step(s, t, c);
    if s.pcs[t].CutLoad? {
      FinishNone(s, t, r.pcs[t]);
    } else {
      FinishOne(s, r, t, k);
    }
  }

  lemma KeepsKill(s: State, t: nat, c: Choice)
    requires Inv(s) && t < |s.pcs| && s.pcs[t].Kill?
    ensures Inv(Step(s, t, c))
  {
    hide Inv;
    LastCount(s);
    KnowsOf(s, t);
    var k := s.pcs[t].k;
    RegionOf(s, k);
    if k + 1 < |s.regions| {
      RegionOf(s, k + 1);
    }
    FinishOne(s, Step(s, t, c), t, k);
  }

  lemma StepKeeps(s: State, t: nat, c: Choice)
    requires Inv(s) && t < |s.pcs|
    ensures |s.regions| > 0 && Inv(Step(s, t, c))
  {
    LastCount(s);
    hide Inv;
    match s.pcs[t]
    case Idle =>
      if c.Release? {
        if c.k < |s.regions| && s.regions[c.k].released < s.regions[c.k].acquired {
          KeepsRelease(s, t, c.k);
        }
      } else {
        KeepsBegin(s, t, c);
      }
    case AcqLoad => KeepsAcquire(s, t, c);
    case AcqCas(_, _) => KeepsAcquire(s, t, c);
    case MutLoad(_) => KeepsMutLoad(s, t, c);
    case MutCas(_, rc, r) =>
      if c == Weak(true) || !HeadIs(s, rc, r) {
        KeepsMutLoad(s, t, c);
      } else {
        KeepsInstall(s, t);
      }
    case LinkLoad(_, _) => KeepsLink(s, t, c);
    case LinkCas(_, _, _, _) => KeepsLink(s, t, c);
    case MutAdd(_, _) => KeepsAdd(s, t, c);
    case WalkLoad(_, _) => KeepsWalkLoad(s, t, c);
    case Walk(_, _, _) => KeepsDrop(s, t, c);
    case CutLoad(_, _) => KeepsCut(s, t, c);
    case CutStore(_, _, _) => KeepsCut(s, t, c);
    case Kill(_, _, _) => KeepsKill(s, t, c);
  }

  // ---- addresses

  /** No two installations that are not destroyed share an address, so that a pointer means one of them. */
  predicate Addresses(s: State) {
    && (forall j, k ::
          0 <= j < k < |s.regions| && s.regions[j].status != Destroyed && s.regions[k].status != Destroyed ==>
            s.regions[j].addr != s.regions[k].addr)
    && (forall u, k :: 0 <= u < |s.pcs| && 0 <= k < |s.regions| && Pending(s.pcs[u], s.regions[k].addr) ==>
          s.regions[k].status == Destroyed)
    && (forall u, v :: 0 <= u < |s.pcs| && 0 <= v < |s.pcs| && u != v && Installs(s.pcs[u]).Some? ==>
          Installs(s.pcs[v]) != Installs(s.pcs[u]))
  }

  function Installs(pc: Pc): Link {
    if pc.MutLoad? || pc.MutCas? then Some(pc.a) else if pc.Kill? && pc.reset then Some(0) else None
  }

  lemma PendingIs(pc: Pc, a: nat)
    ensures Pending(pc, a) <==> Installs(pc) == Some(a)
  {
  }

  /** A step that keeps addresses, destroys nothing that matters, and makes the thread install nothing new. */
  lemma AddressesKept(s: State, r: State, t: nat)
    requires Addresses(s) && t < |s.pcs| == |r.pcs| && r.pcs == s.pcs[t := r.pcs[t]] && |r.regions| == |s.regions|
    requires forall k :: 0 <= k < |s.regions| ==> r.regions[k].addr == s.regions[k].addr
    requires forall k :: 0 <= k < |s.regions| && s.regions[k].status == Destroyed ==> r.regions[k].status == Destroyed
    requires Installs(r.pcs[t]) == None || Installs(r.pcs[t]) == Installs(s.pcs[t])
    ensures Addresses(r)
  {
    forall u, k | 0 <= u < |r.pcs| && 0 <= k < |r.regions| && Pending(r.pcs[u], r.regions[k].addr)
      ensures r.regions[k].status == Destroyed
    {
      PendingIs(r.pcs[u], r.regions[k].addr);
      PendingIs(s.pcs[u], s.regions[k].addr);
    }
  }

  lemma AddressesInstall(s: State, t: nat)
    requires Addresses(s) && t < |s.pcs| && |s.regions| > 0 && s.pcs[t].MutCas?
    ensures Addresses(Install(s, t, s.pcs[t].a))
  {
    var a := s.pcs[t].a;
    var r := Install(s, t, a);
    assert forall k :: 0 <= k < |s.regions| ==>
        r.regions[k].addr == s.regions[k].addr && r.regions[k].status == s.regions[k].status;
    assert forall k :: 0 <= k < |s.regions| && s.regions[k].addr == a ==> Pending(s.pcs[t], s.regions[k].addr);
    forall u, k | 0 <= u < |r.pcs| && 0 <= k < |r.regions| && Pending(r.pcs[u], r.regions[k].addr)
      ensures r.regions[k].status == Destroyed
    {
      PendingIs(s.pcs[u], r.regions[k].addr);
      if k < |s.regions| {
        assert Pending(s.pcs[u], s.regions[k].addr);
      }
    }
  }

  lemma AddressesKill(s: State, t: nat)
    requires Inv(s) && Addresses(s) && t < |s.pcs| && s.pcs[t].Kill? && s.pcs[t].k < |s.regions|
    ensures Addresses(Destroy(s, t, s.pcs[t].k, s.pcs[t].tail, s.pcs[t].reset))
  {
    var k0, reset := s.pcs[t].k, s.pcs[t].reset;
    var r := Destroy(s, t, k0, s.pcs[t].tail, reset);
    KnowsOf(s, t);
    assert s.regions[k0].status != Destroyed;
    hide Inv;
    forall u, k | 0 <= u < |r.pcs| && 0 <= k < |r.regions| && Pending(r.pcs[u], r.regions[k].addr)
      ensures r.regions[k].status == Destroyed
    {
      PendingIs(r.pcs[u], r.regions[k].addr);
      PendingIs(s.pcs[u], s.regions[k].addr);
    }
    forall u | 0 <= u < |s.pcs| && u != t
      ensures s.regions[k0].addr == 0 ==> Installs(s.pcs[u]) != Some(0)
    {
      PendingIs(s.pcs[u], 0);
    }
  }

  lemma AddressesMutate(s: State, t: nat, a: nat)
    requires Addresses(s) && t < |s.pcs| && s.pcs[t] == Idle && Available(s, a)
    ensures Addresses(Go(s, t, MutLoad(a)))
  {
    forall u | 0 <= u < |s.pcs|
      ensures Installs(s.pcs[u]) != Some(a)
    {
      PendingIs(s.pcs[u], a);
    }
  }

  /** The steps that neither announce, nor install, nor destroy. */
  lemma StepElsewhere(s: State, t: nat, c: Choice)
    requires Addresses(s) && t < |s.pcs| && |s.regions| > 0 && !s.pcs[t].Kill? && !(s.pcs[t] == Idle && c.Mutate?)
    requires !(s.pcs[t].MutCas? && c != Weak(true) && HeadIs(s, s.pcs[t].rc, s.pcs[t].r))
    ensures Addresses(Step(s, t, c))
  {
    hide Addresses, Available, Install, Destroy, HeadIs;
    AddressesKept(s, Step(s, t, c), t);
  }

  lemma StepAddresses(s: State, t: nat, c: Choice)
    requires Inv(s) && Addresses(s) && t < |s.pcs| && |s.regions| > 0
    ensures Addresses(Step(s, t, c))
  {
    hide Inv, Addresses, Available;
    var r := Step(s, t, c);
    if s.pcs[t] == Idle && c.Mutate? {
      if Available(s, c.a) {
        AddressesMutate(s, t, c.a);
      }
    } else if s.pcs[t].MutCas? && c != Weak(true) && HeadIs(s, s.pcs[t].rc, s.pcs[t].r) {
      AddressesInstall(s, t);
    } else if s.pcs[t].Kill? {
      KnowsOf(s, t);
      AddressesKill(s, t);
      if !(Live(s, s.pcs[t].k) && s.regions[s.pcs[t].k].rc == 1) {
        AddressesKept(s, r, t);
      }
    } else {
      hide Step;
      StepElsewhere(s, t, c);
    }
  }

  // ---- runs

  datatype Move = Move(t: nat, c: Choice)

  /** n threads after any interleaving of steps. */
  function After(n: nat, moves: seq<Move>): (s: State)
    ensures |s.pcs| == n && |s.regions| > 0
  {
    if moves == [] then Start(n)
    else
      var s, m := After(n, moves[..|moves| - 1]), moves[|moves| - 1];
      if m.t < n then Step(s, m.t, m.c) else s
  }

  lemma StartHolds(n: nat)
    ensures Inv(Start(n)) && Addresses(Start(n))
  {
  }

  lemma {:induction false} Always(n: nat, moves: seq<Move>)
    ensures Inv(After(n, moves)) && Addresses(After(n, moves))
  {
    hide Inv, Addresses, Step;
    if moves == [] {
      StartHolds(n);
    } else {
      var s, m := After(n, moves[..|moves| - 1]), moves[|moves| - 1];
      Always(n, moves[..|moves| - 1]);
      if m.t < n {
        StepKeeps(s, m.t, m.c);
        StepAddresses(s, m.t, m.c);
      }
    }
  }

  /** Main theorem: no step accesses a region that has been destroyed, the check that a region to be destroyed
      has count 1 never fails, and each pointer means one installation. */
  lemma NoFault(n: nat, moves: seq<Move>)
    ensures !After(n, moves).fault && Addresses(After(n, moves))
  {
    Always(n, moves);
    hide After, Addresses;
  }

  lemma {:induction false} Prefix(s: State, k: nat)
    requires Inv(s) && k < |s.regions| && s.regions[k].status != Alive
    ensures forall j :: 0 <= j <= k ==>
              s.regions[j].status != Alive && s.regions[j].acquired == s.regions[j].released && j < Last(s)
  {
    RegionOf(s, k);
    if k > 0 {
      hide Inv;
      Prefix(s, k - 1);
    }
  }

  /** Main theorem: when a region is being destroyed or has been, so are all earlier ones, and every acquirer of it or
      of an earlier region has released. */
  lemma DestroyedSafely(n: nat, moves: seq<Move>, k: nat)
    requires k < |After(n, moves).regions| && After(n, moves).regions[k].status != Alive
    ensures var g := After(n, moves).regions;
            forall j :: 0 <= j <= k ==> g[j].status != Alive && g[j].acquired == g[j].released
  {
    Always(n, moves);
    var s := After(n, moves);
    hide After;
    Prefix(s, k);
  }

  /** A region's fate: taken on by one thread, destroyed once by that thread, and never acquired again. */
  predicate Fate(g: Region, g': Region, t: nat) {
    && g'.addr == g.addr
    && (g.status == Alive ==> g'.status == Alive || g'.status == Dying(t))
    && (g.status.Dying? ==> g'.status == g.status || (g'.status == Destroyed && g.status.t == t))
    && (g.status == Destroyed ==> g' == g)
    && (g.status != Alive ==> g'.acquired == g.acquired && g'.released == g.released)
  }

  lemma FateAt(s: State, t: nat, c: Choice, k: nat)
    requires Inv(s) && t < |s.pcs| && k < |s.regions|
    ensures k < |Step(s, t, c).regions| && Fate(s.regions[k], Step(s, t, c).regions[k], t)
  {
    RegionOf(s, k);
    KnowsOf(s, t);
    if s.pcs[t].Walk? {
      RegionOf(s, s.pcs[t].next);
    }
    if s.pcs[t].MutAdd? {
      RegionOf(s, s.pcs[t].r);
    }
    hide Inv, Covers, Replaces, AtEdge;
  }

  /** Main theorem: each installation is destroyed at most once, by the one thread that took it on. */
  lemma DestroyedOnce(n: nat, moves: seq<Move>, t: nat, c: Choice, k: nat)
    requires t < n && k < |After(n, moves).regions|
    ensures var s := After(n, moves);
            k < |Step(s, t, c).regions| && Fate(s.regions[k], Step(s, t, c).regions[k], t)
  {
    Always(n, moves);
    var s := After(n, moves);
    hide After;
    FateAt(s, t, c, k);
  }

  predicate Quiet(s: State) {
    forall t :: 0 <= t < |s.pcs| ==> s.pcs[t] == Idle
  }

  lemma {:induction false} AllGone(s: State, k: nat)
    requires Inv(s) && Quiet(s) && k < Last(s)
    requires forall j :: 0 <= j < Last(s) ==> s.regions[j].acquired == s.regions[j].released
    ensures s.regions[k].status == Destroyed
  {
    RegionOf(s, k);
    if k > 0 {
      AllGone(s, k - 1);
    }
  }

  /** Main theorem: nothing leaks. When no operation is under way and all acquirers of replaced regions have released,
      every region but the current one has been destroyed. */
  lemma NothingLeaks(n: nat, moves: seq<Move>, k: nat)
    requires Quiet(After(n, moves)) && k < Last(After(n, moves))
    requires var g := After(n, moves).regions; forall j :: 0 <= j < |g| - 1 ==> g[j].acquired == g[j].released
    ensures After(n, moves).regions[k].status == Destroyed
  {
    Always(n, moves);
    var s := After(n, moves);
    hide After;
    AllGone(s, k);
  }

  // ---- when destruction follows installation order

  /** Thread t is about to destroy a region. */
  predicate Kills(s: State, t: nat) {
    t < |s.pcs| && s.pcs[t].Kill?
  }

  /** No other thread is inside sys_dtor over a region before the one that t is about to destroy. */
  predicate Undisturbed(s: State, t: nat)
    requires Kills(s, t)
  {
    forall u, j :: 0 <= u < |s.pcs| && u != t && 0 <= j < s.pcs[t].k ==> !Covers(s.pcs[u], j)
  }

  /** Every region before the one that t is about to destroy has been destroyed. */
  predicate IsNext(s: State, t: nat)
    requires Kills(s, t)
  {
    forall j :: 0 <= j < s.pcs[t].k ==> j < |s.regions| && s.regions[j].status == Destroyed
  }

  lemma CoversMeans(s: State, u: nat, j: nat)
    requires Inv(s) && u < |s.pcs| && Covers(s.pcs[u], j)
    ensures j < |s.regions| && s.regions[j].status == Dying(u)
  {
    KnowsOf(s, u);
    hide Inv;
  }

  lemma DyingMeans(s: State, j: nat)
    requires Inv(s) && j < |s.regions| && s.regions[j].status.Dying?
    ensures s.regions[j].status.t < |s.pcs| && Covers(s.pcs[s.regions[j].status.t], j)
  {
    RegionOf(s, j);
    hide Inv;
  }

  /** The destruction about to happen is in installation order exactly when no other thread is inside sys_dtor over an
      earlier region. */
  lemma NextIffUndisturbed(s: State, t: nat)
    requires Inv(s) && Kills(s, t)
    ensures IsNext(s, t) <==> Undisturbed(s, t)
  {
    var k := s.pcs[t].k;
    KnowsOf(s, t);
    assert k < |s.regions| && s.regions[k].status == Dying(t);
    hide Inv;
    Prefix(s, k);
    if IsNext(s, t) {
      forall u, j | 0 <= u < |s.pcs| && u != t && 0 <= j < k
        ensures !Covers(s.pcs[u], j)
      {
        if Covers(s.pcs[u], j) {
          CoversMeans(s, u, j);
        }
      }
    }
    if Undisturbed(s, t) {
      forall j: nat | j < k
        ensures s.regions[j].status == Destroyed
      {
        if s.regions[j].status.Dying? {
          DyingMeans(s, j);
        }
      }
    }
  }

  /** The regions destroyed so far, in order of time. */
  function Killed(n: nat, moves: seq<Move>): (log: seq<nat>)
  {
    if moves == [] then []
    else
      var s, m := After(n, moves[..|moves| - 1]), moves[|moves| - 1];
      Killed(n, moves[..|moves| - 1]) + if m.t < n && Kills(s, m.t) then [s.pcs[m.t].k] else []
  }

  /** The i-th region destroyed is the i-th region installed. */
  predicate InstallationOrder(log: seq<nat>) {
    forall i :: 0 <= i < |log| ==> log[i] == i
  }

  /** In no step of the run does a thread destroy a region while another one is inside sys_dtor over an earlier
      region. */
  predicate NeverDisturbed(n: nat, moves: seq<Move>) {
    moves == []
    || (var s, m := After(n, moves[..|moves| - 1]), moves[|moves| - 1];
        NeverDisturbed(n, moves[..|moves| - 1]) && (m.t < n && Kills(s, m.t) ==> Undisturbed(s, m.t)))
  }

  /** A step destroys the region of a Kill, and no other. */
  lemma OnlyKillDestroys(s: State, t: nat, c: Choice)
    requires Inv(s) && t < |s.pcs| && |s.regions| > 0
    ensures var r := Step(s, t, c);
            && (Kills(s, t) ==> s.pcs[t].k < |s.regions| && s.regions[s.pcs[t].k].status != Destroyed)
            && forall k :: 0 <= k < |s.regions| ==>
                 (r.regions[k].status == Destroyed <==>
                     s.regions[k].status == Destroyed || (Kills(s, t) && k == s.pcs[t].k))
    ensures forall k :: |s.regions| <= k < |Step(s, t, c).regions| ==> Step(s, t, c).regions[k].status != Destroyed
  {
    if s.pcs[t].Kill? {
      KnowsOf(s, t);
      RegionOf(s, s.pcs[t].k);
      hide Inv, Covers, Replaces, AtEdge;
    } else {
      LastCount(s);
      hide Inv;
      OthersDestroyNothing(s, t, c);
    }
  }

  lemma OthersDestroyNothing(s: State, t: nat, c: Choice)
    requires t < |s.pcs| && |s.regions| > 0 && !s.pcs[t].Kill?
    ensures forall k :: 0 <= k < |s.regions| ==>
              (Step(s, t, c).regions[k].status == Destroyed <==> s.regions[k].status == Destroyed)
    ensures forall k :: |s.regions| <= k < |Step(s, t, c).regions| ==> Step(s, t, c).regions[k].status != Destroyed
  {
  }

  /** The log has exactly the destroyed regions. */
  lemma {:induction false} KilledAre(n: nat, moves: seq<Move>)
    ensures var g := After(n, moves).regions;
            forall k: nat :: k in Killed(n, moves) <==> k < |g| && g[k].status == Destroyed
  {
    if moves != [] {
      var before, s, m := moves[..|moves| - 1], After(n, moves[..|moves| - 1]), moves[|moves| - 1];
      KilledAre(n, before);
      Always(n, before);
      if m.t < n {
        OnlyKillDestroys(s, m.t, m.c);
      }
      hide Inv, Addresses, Step;
    }
  }

  /** Main theorem: over a whole run, regions are destroyed in installation order exactly if no thread ever
      destroys a region while another thread is inside sys_dtor over an earlier one. */
  lemma {:induction false} OrderIffNeverDisturbed(n: nat, moves: seq<Move>)
    ensures InstallationOrder(Killed(n, moves)) <==> NeverDisturbed(n, moves)
  {
    if moves != [] {
      var before, s, m := moves[..|moves| - 1], After(n, moves[..|moves| - 1]), moves[|moves| - 1];
      var log := Killed(n, before);
      OrderIffNeverDisturbed(n, before);
      KilledAre(n, before);
      Always(n, before);
      if m.t < n && Kills(s, m.t) {
        var k := s.pcs[m.t].k;
        NextIffUndisturbed(s, m.t);
        OnlyKillDestroys(s, m.t, m.c);
        hide Inv, Addresses, Step, After, Undisturbed, Killed;
        assert k !in log;
        NextInLog(log, k);
        assert IsNext(s, m.t) <==> forall j: nat :: j < k ==> j in log;
        assert Killed(n, moves) == log + [k] by {
          KilledMore(n, moves);
        }
        OrderGrows(log, k);
      } else {
        KilledMore(n, moves);
        assert Killed(n, moves) == log;
      }
    }
  }

  lemma KilledMore(n: nat, moves: seq<Move>)
    requires moves != []
    ensures var s, m := After(n, moves[..|moves| - 1]), moves[|moves| - 1];
            Killed(n, moves)
            == Killed(n, moves[..|moves| - 1]) + if m.t < n && Kills(s, m.t) then [s.pcs[m.t].k] else []
  {
  }

  lemma OrderGrows(log: seq<nat>, k: nat)
    ensures InstallationOrder(log + [k]) <==> InstallationOrder(log) && k == |log|
  {
    var all := log + [k];
    assert forall i :: 0 <= i < |log| ==> all[i] == log[i];
    assert all[|log|] == k;
  }

  /** A log in installation order goes on with k exactly when it has everything before k. */
  lemma NextInLog(log: seq<nat>, k: nat)
    requires k !in log
    ensures InstallationOrder(log) ==> (k == |log| <==> forall j: nat :: j < k ==> j in log)
  {
    if InstallationOrder(log) {
      forall j: nat
        ensures j in log <==> j < |log|
      {
        if j < |log| {
          assert log[j] in log;
        }
      }
      if k > |log| {
        assert |log| !in log;
      }
    }
  }

  // ---- the order of destruction

  /** Thread t begins an operation and makes k more steps, with no compare-exchange failing by chance. */
  function Solo(s: State, t: nat, c: Choice, k: nat): (r: State)
    requires t < |s.pcs| && |s.regions| > 0
    ensures |r.pcs| == |s.pcs| && |r.regions| > 0
    decreases k
  {
    if k == 0 then Step(s, t, c) else Step(Solo(s, t, c, k - 1), t, Weak(false))
  }

  ghost predicate Reached(n: nat, s: State) {
    exists moves :: After(n, moves) == s
  }

  lemma StepReached(n: nat, s: State, t: nat, c: Choice)
    requires Reached(n, s) && t < n
    ensures |s.pcs| == n && |s.regions| > 0 && Reached(n, Step(s, t, c))
  {
    var moves :| After(n, moves) == s;
    var more := moves + [Move(t, c)];
    assert more[..|more| - 1] == moves;
    hide Step;
    assert After(n, more) == Step(s, t, c);
  }

  lemma {:induction false} SoloReached(n: nat, s: State, t: nat, c: Choice, k: nat)
    requires Reached(n, s) && t < n
    ensures |s.pcs| == n && |s.regions| > 0 && Reached(n, Solo(s, t, c, k))
  {
    hide Step, Reached;
    StepReached(n, s, t, c);
    if k > 0 {
      SoloReached(n, s, t, c, k - 1);
      StepReached(n, Solo(s, t, c, k - 1), t, Weak(false));
    }
  }

  /** Two threads: 0 acquires region 0 and installs region 1; 1 acquires region 1 and installs region 2; 0 releases and
      takes on region 0; 1 releases, takes on region 1 and destroys it. */
  function Stage(k: nat): State {
    var r0, r1 := Region(0, 0, None, 1, 0, false, NotYet, Alive), Region(1, 2, None, 0, 0, true, NotYet, Alive);
    match k
    case 0 => State(2, [r0], [Idle, Idle], false)
    case 1 => State(0, [r0.(rc := 3, next := Some(1), mutation := Added), r1], [Idle, Idle], false)
    case 2 => State(2, [r0.(rc := 3, next := Some(1), mutation := Added), r1.(acquired := 1)], [Idle, Idle], false)
    case 3 => State(0, [r0.(rc := 3, next := Some(1), mutation := Added),
                        r1.(rc := 5, next := Some(2), acquired := 1, mutation := Added),
                        Region(2, 2, None, 0, 0, true, NotYet, Alive)], [Idle, Idle], false)
    case 4 => State(0, [r0.(rc := 1, next := Some(1), released := 1, mutation := Added, status := Dying(0)),
                        r1.(rc := 3, next := Some(2), acquired := 1, pred := false, mutation := Added),
                        Region(2, 2, None, 0, 0, true, NotYet, Alive)], [CutLoad(0, 0), Idle], false)
    case 5 => State(0, [r0.(rc := 1, next := Some(1), released := 1, mutation := Added, status := Dying(0)),
                        r1.(rc := 1, next := Some(2), acquired := 1, released := 1, pred := false, mutation := Added,
                          status := Dying(1)),
                        Region(2, 0, None, 0, 0, false, NotYet, Alive)], [CutLoad(0, 0), CutLoad(1, 1)], false)
    case _ => State(0, [r0.(rc := 1, next := Some(1), released := 1, mutation := Added, status := Dying(0)),
                        r1.(rc := 1, next := None, acquired := 1, released := 1, pred := false, mutation := Added,
                          status := Destroyed),
                        Region(2, 0, None, 0, 0, false, NotYet, Alive)], [CutLoad(0, 0), Idle], false)
  }

  lemma Stages()
    ensures Solo(Start(2), 0, Acquire, 2) == Stage(0)
    ensures Solo(Stage(1), 1, Acquire, 2) == Stage(2)
  {
    assert Start(2).pcs == [Idle, Idle];
  }

  lemma StagesMutate()
    ensures Solo(Stage(0), 0, Mutate(1), 5) == Stage(1)
  {
  }

  lemma StagesAgain()
    ensures Solo(Stage(2), 1, Mutate(2), 5) == Stage(3)
  {
  }

  lemma StagesRelease()
    ensures Solo(Stage(3), 0, Release(0), 2) == Stage(4)
  {
  }

  lemma StagesDestroy()
    ensures Solo(Stage(4), 1, Release(1), 2) == Stage(5)
    ensures Solo(Stage(5), 1, Weak(false), 2) == Stage(6)
  {
  }

  /** Regions are taken on in installation order, but not always destroyed in it: a region can be destroyed by one
      thread while another still has to destroy the one before. */
  lemma LaterCanGoFirst()
    ensures exists moves :: var g := After(2, moves).regions;
                            |g| == 3 && g[0].status == Dying(0) && g[1].status == Destroyed
  {
    hide Step, Solo, Stage;
    var s0 := Start(2);
    assert After(2, []) == s0;
    SoloReached(2, s0, 0, Acquire, 2);
    Stages();
    SoloReached(2, Stage(0), 0, Mutate(1), 5);
    StagesMutate();
    SoloReached(2, Stage(1), 1, Acquire, 2);
    SoloReached(2, Stage(2), 1, Mutate(2), 5);
    StagesAgain();
    SoloReached(2, Stage(3), 0, Release(0), 2);
    StagesRelease();
    SoloReached(2, Stage(4), 1, Release(1), 2);
    StagesDestroy();
    SoloReached(2, Stage(5), 1, Weak(false), 2);
    StageSix();
  }

  lemma StageSix()
    ensures var g := Stage(6).regions; |g| == 3 && g[0].status == Dying(0) && g[1].status == Destroyed
  {
  }

  // ---- what the operations do

  /** The anchor is not what the thread has read, or a weak compare-exchange fails by chance: it has to try again. */
  predicate Repeats(s: State, t: nat, c: Choice)
    requires t < |s.pcs|
  {
    match s.pcs[t]
    case AcqCas(rc, r) => c == Weak(true) || !HeadIs(s, rc, r)
    case MutCas(_, rc, r) => c == Weak(true) || !HeadIs(s, rc, r)
    case LinkCas(r, _, rc2, next2) =>
      c == Weak(true) || (r < |s.regions| && (s.regions[r].rc != rc2 || s.regions[r].next != next2))
    case _ => false
  }

  /** The step of t at pc does what it is for. */
  ghost predicate TakesEffect(s: State, r: State, t: nat, pc: Pc)
    requires t < |r.pcs| && |s.regions| > 0
  {
    match pc
    case AcqCas(_, _) =>
      && r.pcs[t] == Idle && r.headRc == s.headRc + 2
      && r.regions == s.regions[Last(s) := s.regions[Last(s)].(acquired := s.regions[Last(s)].acquired + 1)]
    case MutCas(a, _, _) =>
      && |r.regions| == |s.regions| + 1 && r.regions[|s.regions|] == Region(a, 2, None, 0, 0, true, NotYet, Alive)
      && r.headRc == 0 && r.pcs[t] == LinkLoad(Last(s), s.headRc)
    case LinkCas(k, n, _, _) =>
      k < |s.regions| && r.regions == s.regions[k := s.regions[k].(next := Some(k + 1))] && r.pcs[t] == MutAdd(k, n)
    case MutAdd(k, n) =>
      k < |s.regions| && |r.regions| == |s.regions| && r.regions[k].rc == s.regions[k].rc + n + 1
      && (r.pcs[t] == if r.regions[k].rc == 1 then WalkLoad(k, k) else Idle)
    case Kill(k, _, _) => k < |r.regions| && r.regions[k].status == Destroyed
    case _ => r.pcs[t] != pc
  }

  lemma WalkEffect(s: State, t: nat, c: Choice)
    requires Inv(s) && t < |s.pcs| && |s.regions| > 0 && !s.fault && !Step(s, t, c).fault
    requires s.pcs[t].WalkLoad? || s.pcs[t].Walk? || s.pcs[t].CutLoad? || s.pcs[t].CutStore? || s.pcs[t].Kill?
    ensures TakesEffect(s, Step(s, t, c), t, s.pcs[t])
  {
    hide Inv;
  }

  lemma InstallEffect(s: State, t: nat, c: Choice)
    requires t < |s.pcs| && |s.regions| > 0 && !s.fault && !Step(s, t, c).fault && !Repeats(s, t, c)
    requires var pc := s.pcs[t];
             pc.AcqLoad? || pc.AcqCas? || pc.MutLoad? || pc.MutCas? || pc.LinkLoad? || pc.LinkCas? || pc.MutAdd?
    ensures TakesEffect(s, Step(s, t, c), t, s.pcs[t])
  {
  }

  /** Main theorem: in every reachable state every step of a thread inside an operation takes effect, unless the
      anchor is not what the thread has read, or a weak compare-exchange fails by chance: an acquire counts at the
      head, a mutate installs its region, links it and hands the count over, sys_dtor goes on to the next region or
      destroys. A release counts at once, and an idle thread begins what it is told to. */
  lemma OperationsTakeEffect(n: nat, moves: seq<Move>, t: nat, c: Choice)
    requires t < n
    ensures var s := After(n, moves);
            var pc, r := s.pcs[t], Step(s, t, c);
            && (pc != Idle && !Repeats(s, t, c) ==> TakesEffect(s, r, t, pc))
            && (pc == Idle ==>
                  && (c.Acquire? ==> r.pcs[t] == AcqLoad)
                  && (c.Mutate? && Available(s, c.a) ==> r.pcs[t] == MutLoad(c.a))
                  && (c.Release? && c.k < |s.regions| && s.regions[c.k].released < s.regions[c.k].acquired ==>
                        && |r.regions| == |s.regions| && r.regions[c.k].released == s.regions[c.k].released + 1
                        && r.regions[c.k].rc == s.regions[c.k].rc - 2
                        && (r.pcs[t] == if r.regions[c.k].rc == 1 then WalkLoad(c.k, c.k) else Idle)))
  {
    Always(n, moves);
    var s := After(n, moves);
    hide After, Addresses, Available;
    LastCount(s);
    StepKeeps(s, t, c);
    LastCount(Step(s, t, c));
    var pc := s.pcs[t];
    if pc == Idle {
      if c.Release? && c.k < |s.regions| && s.regions[c.k].released < s.regions[c.k].acquired {
        ReleaseEffect(s, t, c);
      }
      hide Inv;
    } else if !Repeats(s, t, c) {
      hide Inv, Step, TakesEffect, Repeats;
      if pc.WalkLoad? || pc.Walk? || pc.CutLoad? || pc.CutStore? || pc.Kill? {
        WalkEffect(s, t, c);
      } else {
        InstallEffect(s, t, c);
      }
    }
  }

  lemma ReleaseEffect(s: State, t: nat, c: Choice)
    requires t < |s.pcs| && |s.regions| > 0 && !s.fault && !Step(s, t, c).fault && s.pcs[t] == Idle
    requires c.Release? && c.k < |s.regions| && s.regions[c.k].released < s.regions[c.k].acquired
    ensures var r := Step(s, t, c);
            && |r.regions| == |s.regions| && r.regions[c.k].released == s.regions[c.k].released + 1
            && r.regions[c.k].rc == s.regions[c.k].rc - 2
            && (r.pcs[t] == if r.regions[c.k].rc == 1 then WalkLoad(c.k, c.k) else Idle)
  {
  }
}
