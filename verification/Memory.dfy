/** The detector's memory: per-thread clocks, sync variables, atomic histories,
    plain variables and the seq_cst fence clock, with one function per operation. */
module Memory {
  import opened Clocks

  datatype Thread = Thread(clock: Clock, acqFence: Clock, relFence: Clock, lastYield: nat)

  /** One history_record. */
  datatype Record = Record(writer: nat, seqCst: bool, stamp: nat, order: Clock, seen: seq<Seen>, value: int)

  datatype Var = Var(loads: Clock, stores: Clock, initialized: bool)

  /** `atomics[a]` is the whole modification order of atomic a; the detector's ring
      holds its last three records. */
  datatype State = State(
    threads: seq<Thread>,
    syncs: seq<Clock>,
    atomics: seq<seq<Record>>,
    vars: seq<Var>,
    scFence: Clock)

  /** `window` is how far back a load may look: 2 under the random scheduler, else 1. */
  datatype Config = Config(threads: nat, syncs: nat, atomics: nat, vars: nat, window: nat)

  datatype Event =
    | VarLoad(t: nat, v: nat)
    | VarStore(t: nat, v: nat)
    | SyncAcquire(t: nat, s: nat)
    | SyncRelease(t: nat, s: nat)
    | SyncAcqRel(t: nat, s: nat)
    | Load(t: nat, a: nat, k: nat, mo: Order, rmw: bool)
    | Store(t: nat, a: nat, mo: Order, rmw: bool, value: int)
    | Fence(t: nat, mo: Order)
    | Yield(t: nat)
    | GlobalFence

  // ---- shapes

  predicate ThreadOk(n: nat, th: Thread) {
    |th.clock| == n && |th.acqFence| == n && |th.relFence| == n
  }

  predicate RecordOk(n: nat, r: Record) {
    r.writer < n && |r.order| == n && |r.seen| == n
  }

  predicate VarOk(n: nat, v: Var) {
    |v.loads| == n && |v.stores| == n
  }

  predicate Typed(c: Config, s: State) {
    && |s.threads| == c.threads
    && |s.syncs| == c.syncs
    && |s.atomics| == c.atomics
    && |s.vars| == c.vars
    && |s.scFence| == c.threads
    && (forall t :: 0 <= t < c.threads ==> ThreadOk(c.threads, s.threads[t]))
    && (forall i :: 0 <= i < c.syncs ==> |s.syncs[i]| == c.threads)
    && (forall a, k :: 0 <= a < c.atomics && 0 <= k < |s.atomics[a]| ==> RecordOk(c.threads, s.atomics[a][k]))
    && (forall v :: 0 <= v < c.vars ==> VarOk(c.threads, s.vars[v]))
  }

  predicate InRange(c: Config, e: Event) {
    (!e.GlobalFence? ==> e.t < c.threads)
    && (match e
        case VarLoad(_, v) => v < c.vars
        case VarStore(_, v) => v < c.vars
        case SyncAcquire(_, s) => s < c.syncs
        case SyncRelease(_, s) => s < c.syncs
        case SyncAcqRel(_, s) => s < c.syncs
        case Load(_, a, _, _, _) => a < c.atomics
        case Store(_, a, _, _, _) => a < c.atomics
        case _ => true)
  }

  // ---- plain variables

  /** var_data_impl::load: no store of another thread is unknown to this one. */
  predicate LoadPasses(clock: Clock, v: Var)
    requires |clock| == |v.stores|
  {
    forall u :: 0 <= u < |clock| ==> clock[u] >= v.stores[u]
  }

  /** var_data_impl::store: neither a store nor a load of another thread is unknown. */
  predicate StorePasses(clock: Clock, v: Var)
    requires |clock| == |v.stores| == |v.loads|
  {
    forall u :: 0 <= u < |clock| ==> clock[u] >= v.stores[u] && clock[u] >= v.loads[u]
  }

  // ---- atomics

  function MarkSeen(r: Record, t: nat, ts: nat): (r': Record)
    requires t < |r.seen|
    ensures |r'.seen| == |r.seen| && r'.writer == r.writer && r'.order == r.order
  {
    if r.seen[t] == Never then r.(seen := r.seen[t := SeenAt(ts)]) else r
  }

  /** atomic_load once the record is chosen: the thread's side. */
  function LoadThread(th: Thread, t: nat, r: Record, mo: Order): (th': Thread)
    requires t < |th.clock| == |th.acqFence| == |r.order|
    ensures |th'.clock| == |th.clock| && |th'.acqFence| == |th.acqFence| && th'.relFence == th.relFence
  {
    var own := Tick(th.clock, t);
    if Acquires(mo) then th.(clock := Max(own, r.order))
    else th.(clock := own, acqFence := Max(th.acqFence, r.order))
  }

  /** The clock a store publishes: the thread's own if it releases, else that of the last release fence. */
  function Published(th: Thread, t: nat, mo: Order): (c: Clock)
    requires t < |th.clock| == |th.relFence|
    ensures |c| == |th.clock|
  {
    if Releases(mo) then Tick(th.clock, t) else th.relFence
  }

  /** Whether a store continues the release sequence of the record right before it. */
  predicate Preserves(prior: seq<Record>, t: nat, rmw: bool) {
    |prior| > 0 && (rmw || t == prior[|prior| - 1].writer)
  }

  /** atomic_store: the record appended to `prior`, the history so far. */
  function StoreRecord(th: Thread, t: nat, prior: seq<Record>, mo: Order, rmw: bool, value: int): (r: Record)
    requires t < |th.clock| == |th.relFence|
    requires |prior| > 0 ==> |prior[|prior| - 1].order| == |th.clock|
    ensures RecordOk(|th.clock|, r)
  {
    var ts := th.clock[t] + 1;
    var mine := Published(th, t, mo);
    Record(t, mo == SeqCst, ts,
           if Preserves(prior, t, rmw) then Max(prior[|prior| - 1].order, mine) else mine,
           seq(|th.clock|, u => if u == t then SeenAt(ts) else Never),
           value)
  }

  predicate Readable(th: Thread, t: nat, recs: seq<Record>) {
    forall k :: 0 <= k < |recs| ==> t < |recs[k].seen| == |th.clock| && recs[k].writer < |th.clock|
  }

  /** The checks of get_load_index that forbid a load from looking past record r. */
  predicate Stops(th: Thread, t: nat, recs: seq<Record>, r: nat, mo: Order)
    requires r < |recs| && Readable(th, t, recs)
  {
    || (r > 0 && Reaches(th.lastYield, recs[r - 1].seen[t]))
    || (mo == SeqCst && recs[r].seqCst)
    || th.clock[recs[r].writer] >= recs[r].stamp
    || exists u :: 0 <= u < |th.clock| && Reaches(th.clock[u], recs[r].seen[u])
  }

  /** Record k may be returned by a load: every newer record was passed over. */
  predicate CanRead(th: Thread, t: nat, recs: seq<Record>, k: nat, mo: Order, rmw: bool, window: nat)
    requires Readable(th, t, recs)
  {
    && k < |recs|
    && (if rmw then k == |recs| - 1 else
          && |recs| - 1 <= k + window
          && forall r :: k < r < |recs| ==> !Stops(th, t, recs, r, mo))
  }

  // ---- fences

  function FenceAcquire(th: Thread): Thread
    requires |th.clock| == |th.acqFence|
  {
    th.(clock := Max(th.clock, th.acqFence))
  }

  function FenceRelease(th: Thread): Thread {
    th.(relFence := th.clock)
  }

  function FenceSeqCst(th: Thread, sc: Clock): Thread
    requires |th.clock| == |th.acqFence| == |sc|
  {
    var th' := FenceAcquire(th);
    FenceRelease(th'.(clock := Max(th'.clock, sc)))
  }

  function MaxOwn(threads: seq<Thread>, i: nat): (m: nat)
    requires i <= |threads|
    requires forall t :: 0 <= t < |threads| ==> t < |threads[t].clock|
    ensures forall t :: 0 <= t < i ==> threads[t].clock[t] <= m
    ensures m == 0 || exists t :: 0 <= t < i && threads[t].clock[t] == m
  {
    if i == 0 then 0
    else
      var m := MaxOwn(threads, i - 1);
      if threads[i - 1].clock[i - 1] > m then threads[i - 1].clock[i - 1] else m
  }

  // ---- the whole memory

  function Init(c: Config): (s: State)
    ensures Typed(c, s)
  {
    State(seq(c.threads, t requires 0 <= t < c.threads => Thread(Zeros(c.threads)[t := 1], Zeros(c.threads),
      Zeros(c.threads), 0)),
          seq(c.syncs, i => Zeros(c.threads)),
          seq(c.atomics, a => []),
          seq(c.vars, v => Var(Zeros(c.threads), Zeros(c.threads), false)),
          Zeros(c.threads))
  }

  /** The operation is legal and, for accesses, reports no error. */
  predicate Enabled(c: Config, s: State, e: Event)
    requires Typed(c, s)
  {
    && InRange(c, e)
    && (match e
        case VarLoad(t, v) => s.vars[v].initialized && LoadPasses(s.threads[t].clock, s.vars[v])
        case VarStore(t, v) => s.vars[v].initialized ==> StorePasses(s.threads[t].clock, s.vars[v])
        case Load(t, a, k, mo, rmw) =>
          && (rmw || mo == Relaxed || mo == Acquire || mo == SeqCst)
          && CanRead(s.threads[t], t, s.atomics[a], k, mo, rmw, c.window)
        case Store(t, a, mo, rmw, _) =>
          rmw || mo == Relaxed || mo == Release || mo == SeqCst
        case Fence(_, mo) => mo != Relaxed
        case _ => true)
  }

  function PutThread(c: Config, s: State, t: nat, th: Thread): (r: State)
    requires Typed(c, s) && t < c.threads && ThreadOk(c.threads, th)
    ensures Typed(c, r)
  {
    s.(threads := s.threads[t := th])
  }

  /** Only the thread's clock changes. */
  function PutClock(c: Config, s: State, t: nat, clock: Clock): (r: State)
    requires Typed(c, s) && t < c.threads == |clock|
    ensures Typed(c, r)
  {
    PutThread(c, s, t, s.threads[t].(clock := clock))
  }

  function PutSync(c: Config, s: State, i: nat, order: Clock): (r: State)
    requires Typed(c, s) && i < c.syncs && |order| == c.threads
    ensures Typed(c, r)
  {
    s.(syncs := s.syncs[i := order])
  }

  function PutVar(c: Config, s: State, v: nat, d: Var): (r: State)
    requires Typed(c, s) && v < c.vars && VarOk(c.threads, d)
    ensures Typed(c, r)
  {
    s.(vars := s.vars[v := d])
  }

  function PutRecords(c: Config, s: State, a: nat, recs: seq<Record>): (r: State)
    requires Typed(c, s) && a < c.atomics
    requires forall k :: 0 <= k < |recs| ==> RecordOk(c.threads, recs[k])
    ensures Typed(c, r)
  {
    s.(atomics := s.atomics[a := recs])
  }

  function ApplyFence(c: Config, s: State, t: nat, mo: Order): (r: State)
    requires Typed(c, s) && t < c.threads
    ensures Typed(c, r)
  {
    var th := s.threads[t];
    match mo
    case Relaxed => s
    case Acquire => PutThread(c, s, t, FenceAcquire(th))
    case Release => PutThread(c, s, t, FenceRelease(th))
    case AcqRel => PutThread(c, s, t, FenceRelease(FenceAcquire(th)))
    case SeqCst =>
      var th' := FenceSeqCst(th, s.scFence);
      PutThread(c, s, t, th').(scFence := th'.clock)
  }

  /** rl_global_fence: every entry of every clock becomes the largest own timestamp. */
  function ApplyGlobalFence(c: Config, s: State): (r: State)
    requires Typed(c, s)
    ensures Typed(c, r)
  {
    var m := MaxOwn(s.threads, c.threads);
    s.(threads := seq(c.threads, t requires 0 <= t < c.threads =>
      s.threads[t].(clock := seq(c.threads, u => m))))
  }

  function Apply(c: Config, s: State, e: Event): (r: State)
    requires Typed(c, s)
    ensures Typed(c, r)
  {
    if !Enabled(c, s, e) then s else
    match e
    case VarLoad(t, v) =>
      var own := Tick(s.threads[t].clock, t);
      PutVar(c, PutClock(c, s, t, own), v, s.vars[v].(loads := s.vars[v].loads[t := own[t]]))
    case VarStore(t, v) =>
      var own := Tick(s.threads[t].clock, t);
      PutVar(c, PutClock(c, s, t, own), v, s.vars[v].(stores := s.vars[v].stores[t := own[t]], initialized := true))
    case SyncAcquire(t, i) =>
      PutClock(c, s, t, Max(Tick(s.threads[t].clock, t), s.syncs[i]))
    case SyncRelease(t, i) =>
      var own := Tick(s.threads[t].clock, t);
      PutSync(c, PutClock(c, s, t, own), i, Max(s.syncs[i], own))
    case SyncAcqRel(t, i) =>
      var own := Max(Tick(s.threads[t].clock, t), s.syncs[i]);
      PutSync(c, PutClock(c, s, t, own), i, Max(s.syncs[i], own))
    case Load(t, a, k, mo, _) =>
      var recs := s.atomics[a];
      PutRecords(c, PutThread(c, s, t, LoadThread(s.threads[t], t, recs[k], mo)), a,
                 recs[k := MarkSeen(recs[k], t, s.threads[t].clock[t] + 1)])
    case Store(t, a, mo, rmw, value) =>
      var recs := s.atomics[a];
      PutRecords(c, PutClock(c, s, t, Tick(s.threads[t].clock, t)), a,
                 recs + [StoreRecord(s.threads[t], t, recs, mo, rmw, value)])
    case Fence(t, mo) => ApplyFence(c, s, t, mo)
    case Yield(t) => PutThread(c, s, t, s.threads[t].(lastYield := s.threads[t].clock[t]))
    case GlobalFence => ApplyGlobalFence(c, s)
  }

  // ---- runs

  /** The memory after the first i operations of tr. */
  function At(c: Config, tr: seq<Event>, i: nat): (s: State)
    requires i <= |tr|
    ensures Typed(c, s)
  {
    if i == 0 then Init(c) else Apply(c, At(c, tr, i - 1), tr[i - 1])
  }

  /** The store half of an RMW directly follows its load half. */
  predicate RmwPaired(tr: seq<Event>, i: nat)
    requires i < |tr|
  {
    tr[i].Store? && tr[i].rmw ==>
      && i > 0 && tr[i - 1].Load? && tr[i - 1].rmw
      && tr[i - 1].t == tr[i].t && tr[i - 1].a == tr[i].a && tr[i - 1].mo == tr[i].mo
  }

  /** Operation i of tr is legal where it stands. */
  predicate Legal(c: Config, tr: seq<Event>, i: nat) {
    i < |tr| && Enabled(c, At(c, tr, i), tr[i]) && RmwPaired(tr, i)
  }

  /** The first m operations of tr are a run in which the detector reported nothing. */
  predicate Run(c: Config, tr: seq<Event>, m: nat)
  {
    m <= |tr| && forall i :: 0 <= i < m ==> Legal(c, tr, i)
  }
}
