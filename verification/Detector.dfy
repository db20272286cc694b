/** The detector's objects, updated in place as the source does: threads and sync variables over
    clock arrays, the per-variable timestamp arrays, and the three-slot ring of an atomic. Every
    method is tied to the function of module Memory that the theorems are about. */
module Detector {
  import opened Clocks
  import opened Memory

  // ---- foreach over clock arrays

  method AssignMax(dst: array<nat>, src: array<nat>)
    requires dst != src && dst.Length == src.Length
    modifies dst
    ensures dst[..] == Max(old(dst[..]), src[..])
  {
    for i := 0 to dst.Length
      invariant forall u :: i <= u < dst.Length ==> dst[u] == old(dst[u])
      invariant forall u :: 0 <= u < i ==> dst[u] == if src[u] > old(dst[u]) then src[u] else old(dst[u])
    {
      if src[i] > dst[i] {
        dst[i] := src[i];
      }
    }
  }

  method Assign(dst: array<nat>, src: array<nat>)
    requires dst != src && dst.Length == src.Length
    modifies dst
    ensures dst[..] == src[..]
  {
    for i := 0 to dst.Length
      invariant forall u :: 0 <= u < i ==> dst[u] == src[u]
    {
      dst[i] := src[i];
    }
  }

  method Fill(dst: array<nat>, value: nat)
    modifies dst
    ensures dst[..] == seq(dst.Length, u => value)
  {
    for i := 0 to dst.Length
      invariant forall u :: 0 <= u < i ==> dst[u] == value
    {
      dst[i] := value;
    }
  }

  /** assign_max from a clock held by value in a history record. */
  method MergeClock(dst: array<nat>, src: Clock)
    requires dst.Length == |src|
    modifies dst
    ensures dst[..] == Max(old(dst[..]), src)
  {
    for i := 0 to dst.Length
      invariant forall u :: i <= u < dst.Length ==> dst[u] == old(dst[u])
      invariant forall u :: 0 <= u < i ==> dst[u] == if src[u] > old(dst[u]) then src[u] else old(dst[u])
    {
      if src[i] > dst[i] {
        dst[i] := src[i];
      }
    }
  }

  // ---- which record a load picks

  /** For each record, whether a load by t must stop there. */
  function StopFlags(th: Thread, t: nat, recs: seq<Record>, mo: Order): (f: seq<bool>)
    requires Readable(th, t, recs)
    ensures |f| == |recs| && forall r :: 0 <= r < |recs| ==> f[r] == Stops(th, t, recs, r, mo)
  {
    seq(|recs|, r requires 0 <= r < |recs| => Stops(th, t, recs, r, mo))
  }

  /** The backward search of get_load_index ends at record k: it passed over every newer record, where
      nothing stopped it and the rand(2) call did not return 0 (stay), and it goes no further. Record -1
      is a walk past the first one. */
  predicate EndsAt(stops: seq<bool>, stay: seq<bool>, k: int) {
    var n := |stops| - 1 - k;
    && -1 <= k < |stops| && n <= |stay|
    && (forall x :: k < x < |stops| ==> !stops[x])
    && (forall j :: 0 <= j < n ==> !stay[j])
    && (n == |stay| || k < 0 || stops[k] || stay[n])
  }

  lemma EndsIntro(stops: seq<bool>, stay: seq<bool>, k: int, i: nat)
    requires -1 <= k < |stops| && i == |stops| - 1 - k <= |stay|
    requires forall x :: k < x < |stops| ==> !stops[x]
    requires forall j :: 0 <= j < i ==> !stay[j]
    requires i == |stay| || k < 0 || stops[k] || stay[i]
    ensures EndsAt(stops, stay, k)
  {
  }

  /** The search ends at one record only. */
  lemma EndsOnce(stops: seq<bool>, stay: seq<bool>, k: int, k': int)
    requires EndsAt(stops, stay, k) && EndsAt(stops, stay, k')
    ensures k == k'
  {
  }

  /** The random answers of the search produce exactly the records that CanRead admits, and the
      search walks off the first record (an uninitialised access) exactly when nothing stops it. */
  lemma SearchExact(th: Thread, t: nat, recs: seq<Record>, mo: Order, limit: nat, k: int)
    requires Readable(th, t, recs) && -1 <= k < |recs|
    ensures (exists stay: seq<bool> :: |stay| == limit && EndsAt(StopFlags(th, t, recs, mo), stay, k))
            <==> if k >= 0 then CanRead(th, t, recs, k, mo, false, limit)
                 else |recs| <= limit && forall x :: 0 <= x < |recs| ==> !Stops(th, t, recs, x, mo)
  {
    hide Stops;
    var stops := StopFlags(th, t, recs, mo);
    var n := |recs| - 1 - k;
    if stay: seq<bool> :| |stay| == limit && EndsAt(stops, stay, k) {
      assert forall x :: k < x < |recs| ==> !stops[x] && !Stops(th, t, recs, x, mo);
    }
    if n <= limit && forall x :: k < x < |recs| ==> !Stops(th, t, recs, x, mo) {
      var stay := seq(limit, j => j == n);
      assert EndsAt(stops, stay, k);
    }
  }

  // ---- atomics

  /** One slot of the ring. */
  datatype Slot = Slot(busy: bool, threadId: nat, seqCst: bool, stamp: nat, order: Clock, seen: seq<Seen>)

  predicate Holds(s: Slot, r: Record) {
    s.busy && s.threadId == r.writer && s.seqCst == r.seqCst && s.stamp == r.stamp && s.order == r.order
      && s.seen == r.seen
  }

  /** atomic_data_impl (atomic_history_size is 3) with the values of generic_atomic: records live at index % 3,
      record k at index k + 1. */
  class AtomicData {
    const threads: nat
    const history: array<Slot>
    const values: array<int>
    var currentIndex: nat
    var value: int
    var initialized: bool
    var alreadyFailed: bool
    ghost var mo: seq<Record>

    ghost predicate Valid()
      reads this, history, values
    {
      && history.Length == 3 == values.Length && (history as object) != values
      && currentIndex == |mo|
      && (initialized <==> |mo| > 0)
      && (|mo| > 0 ==> value == mo[|mo| - 1].value)
      && (forall k :: 0 <= k < |mo| ==> RecordOk(threads, mo[k]))
      && (|mo| >= 1 ==> Live(|mo|))
      && (|mo| >= 2 ==> Live(|mo| - 1))
      && (|mo| >= 3 ==> Live(|mo| - 2))
      && (|mo| < 3 ==> !history[0].busy)
    }

    /** The slot of `index` holds record index - 1 and its value. */
    ghost predicate Live(index: nat)
      requires 0 < index <= |mo| && history.Length == 3 == values.Length
      reads this, history, values
    {
      Holds(history[index % 3], mo[index - 1]) && values[index % 3] == mo[index - 1].value
    }

    /** first_seen_order_[t] = ts, unless t has seen the record. */
    method MarkSlot(index: nat, t: nat, ts: nat)
      requires Valid() && 0 < index <= |mo| <= index + 2 && t < threads
      modifies history, `mo
      ensures Valid() && mo == old(mo)[index - 1 := MarkSeen(old(mo)[index - 1], t, ts)]
    {
      var rec := history[index % 3];
      ghost var r := mo[index - 1];
      assert Live(index) && RecordOk(threads, r);
      if rec.seen[t] == Never {
        history[index % 3] := rec.(seen := rec.seen[t := SeenAt(ts)]);
      }
      mo := mo[index - 1 := MarkSeen(r, t, ts)];
      assert Holds(history[index % 3], MarkSeen(r, t, ts));
      hide Holds, MarkSeen, RecordOk;
    }

    /** ++current_index_: the next slot takes the new record and its value. */
    method Append(slot: Slot, newValue: int, ghost r: Record) returns (index: nat)
      requires Valid() && RecordOk(threads, r) && Holds(slot, r) && r.value == newValue
      modifies history, values, `mo, `currentIndex, `value, `initialized
      ensures Valid() && mo == old(mo) + [r] && index == |mo|
    {
      currentIndex := currentIndex + 1;
      index := currentIndex;
      history[index % 3] := slot;
      values[index % 3] := newValue;
      value := newValue;
      initialized := true;
      mo := mo + [r];
    }

    /** Within reach of a load, a slot is busy exactly when it holds a record. */
    lemma SlotBusy(index: nat)
      requires Valid() && index <= |mo| <= index + 2
      ensures history[index % 3].busy <==> index > 0
    {
    }

    constructor (threads: nat)
      ensures Valid() && mo == [] && this.threads == threads && !alreadyFailed
      ensures fresh(history) && fresh(values)
    {
      this.threads := threads;
      history := new Slot[3](_ => Slot(false, 0, false, 0, Zeros(threads), seq(threads, u => Never)));
      values := new int[3](_ => 0);
      currentIndex, value, initialized, alreadyFailed := 0, 0, false, false;
      mo := [];
    }
  }

  // ---- what an atomic operation does to its thread and to the history

  /** The thread and the history after a read of record k. */
  ghost predicate LoadDone(th: Thread, t: nat, recs: seq<Record>, k: int, mo: Order, th': Thread, recs': seq<Record>) {
    && t < |th.clock| && ThreadOk(|th.clock|, th) && 0 <= k < |recs| && RecordOk(|th.clock|, recs[k])
    && th' == LoadThread(th, t, recs[k], mo)
    && recs' == recs[k := MarkSeen(recs[k], t, th.clock[t] + 1)]
  }

  /** The thread and the history after a store. */
  ghost predicate StoreDone(th: Thread, t: nat, recs: seq<Record>, mo: Order, rmw: bool, value: int, th': Thread,
      recs': seq<Record>) {
    && t < |th.clock| && ThreadOk(|th.clock|, th) && (recs == [] || RecordOk(|th.clock|, recs[|recs| - 1]))
    && th' == th.(clock := Tick(th.clock, t))
    && recs' == recs + [StoreRecord(th, t, recs, mo, rmw, value)]
  }

  /** After an RMW: a read of the newest record, then a store right after it. */
  ghost predicate RmwDone(th: Thread, t: nat, recs: seq<Record>, mo: Order, value: int, th': Thread,
      recs': seq<Record>) {
    exists mid, marked ::
      LoadDone(th, t, recs, |recs| - 1, mo, mid, marked) && StoreDone(mid, t, marked, mo, true, value, th', recs')
  }

  lemma RmwIntro(th: Thread, t: nat, recs: seq<Record>, mo: Order, value: int, mid: Thread, marked: seq<Record>,
      th': Thread, recs': seq<Record>)
    requires LoadDone(th, t, recs, |recs| - 1, mo, mid, marked)
             && StoreDone(mid, t, marked, mo, true, value, th', recs')
    ensures RmwDone(th, t, recs, mo, value, th', recs')
  {
  }

  /** A load event of a run is accepted with any load order if its record may be read, and does this. */
  lemma LoadEvent(c: Config, s: State, e: Event)
    requires Typed(c, s) && e.Load? && InRange(c, e)
    requires e.rmw || e.mo == Relaxed || e.mo == Acquire || e.mo == SeqCst
    requires forall k :: 0 <= k < |s.atomics[e.a]| ==> RecordOk(c.threads, s.atomics[e.a][k])
    requires CanRead(s.threads[e.t], e.t, s.atomics[e.a], e.k, e.mo, e.rmw, c.window)
    ensures Enabled(c, s, e)
    ensures LoadDone(s.threads[e.t], e.t, s.atomics[e.a], e.k, e.mo, Apply(c, s, e).threads[e.t],
            Apply(c, s, e).atomics[e.a])
  {
    assert RecordOk(c.threads, s.atomics[e.a][e.k]);
    hide CanRead, LoadThread, MarkSeen;
  }

  /** A store event of a run is accepted as part of an RMW and with any store order, and does this. */
  lemma StoreEvent(c: Config, s: State, e: Event)
    requires Typed(c, s) && e.Store? && InRange(c, e)
    requires e.rmw || e.mo == Relaxed || e.mo == Release || e.mo == SeqCst
    ensures Enabled(c, s, e)
    ensures StoreDone(s.threads[e.t], e.t, s.atomics[e.a], e.mo, e.rmw, e.value, Apply(c, s, e).threads[e.t],
            Apply(c, s, e).atomics[e.a])
  {
    hide StoreRecord;
  }

  /** In a run, an RMW is the pair of its load and its store, with nothing in between. */
  lemma RmwIsLoadThenStore(c: Config, s: State, t: nat, a: nat, mo: Order, value: int)
    requires Typed(c, s) && t < c.threads && a < c.atomics && |s.atomics[a]| > 0
    ensures var load, store := Load(t, a, |s.atomics[a]| - 1, mo, true), Store(t, a, mo, true, value);
            var mid := Apply(c, s, load);
            var end := Apply(c, mid, store);
            && Enabled(c, s, load) && Enabled(c, mid, store)
            && RmwDone(s.threads[t], t, s.atomics[a], mo, value, end.threads[t], end.atomics[a])
  {
    var load, store := Load(t, a, |s.atomics[a]| - 1, mo, true), Store(t, a, mo, true, value);
    LoadEvent(c, s, load);
    var mid := Apply(c, s, load);
    StoreEvent(c, mid, store);
    hide LoadDone, StoreDone, Apply;
  }

  // ---- threads

  class ThreadInfo {
    const index: nat
    const acqRel: array<nat>
    const acquireFence: array<nat>
    const releaseFence: array<nat>
    var lastYield: nat

    ghost predicate Valid()
    {
      && index < acqRel.Length == acquireFence.Length == releaseFence.Length
      && acqRel != acquireFence && acqRel != releaseFence && acquireFence != releaseFence
    }

    function View(): Thread
      reads this, acqRel, acquireFence, releaseFence
    {
      Thread(acqRel[..], acquireFence[..], releaseFence[..], lastYield)
    }

    constructor (index: nat, threads: nat)
      requires index < threads
      ensures Valid() && this.index == index && acqRel.Length == threads
      ensures fresh(acqRel) && fresh(acquireFence) && fresh(releaseFence)
    {
      this.index := index;
      acqRel := new nat[threads];
      acquireFence := new nat[threads];
      releaseFence := new nat[threads];
      lastYield := 0;
    }

    /** reset_thread and thread_info::iteration_begin. */
    method IterationBegin()
      requires Valid()
      modifies this`lastYield, acqRel, acquireFence, releaseFence
      ensures View() == Thread(Zeros(acqRel.Length)[index := 1], Zeros(acqRel.Length), Zeros(acqRel.Length), 0)
    {
      Fill(acquireFence, 0);
      Fill(releaseFence, 0);
      lastYield := 0;
      Fill(acqRel, 0);
      acqRel[index] := 1;
    }

    method FenceAcquire()
      requires Valid()
      modifies acqRel
      ensures View() == Memory.FenceAcquire(old(View()))
    {
      AssignMax(acqRel, acquireFence);
    }

    method FenceRelease()
      requires Valid()
      modifies releaseFence
      ensures View() == Memory.FenceRelease(old(View()))
    {
      Assign(releaseFence, acqRel);
    }

    method FenceAcqRel()
      requires Valid()
      modifies acqRel, releaseFence
      ensures View() == Memory.FenceRelease(Memory.FenceAcquire(old(View())))
    {
      FenceAcquire();
      FenceRelease();
    }

    method FenceSeqCst(scFence: array<nat>)
      requires Valid() && scFence.Length == acqRel.Length
      requires scFence != acqRel && scFence != acquireFence && scFence != releaseFence
      modifies acqRel, releaseFence, scFence
      ensures View() == Memory.FenceSeqCst(old(View()), old(scFence[..]))
      ensures scFence[..] == View().clock
    {
      FenceAcquire();
      AssignMax(acqRel, scFence);
      Assign(scFence, acqRel);
      FenceRelease();
    }

    /** The stop conditions of get_load_index for the record at `index`. */
    method MustStop(a: AtomicData, index: nat, mo: Order) returns (stop: bool)
      requires Valid() && a.Valid() && a.threads == acqRel.Length
      requires 0 < index <= |a.mo| && |a.mo| <= index + 1
      ensures stop == Stops(View(), this.index, a.mo, index - 1, mo)
    {
      ghost var th, recs, r := View(), a.mo, index - 1;
      var rec := a.history[index % 3];
      assert Holds(rec, recs[r]) && RecordOk(a.threads, recs[r]);
      var prev := a.history[(index - 1) % 3];
      assert index > 1 ==> Holds(prev, recs[r - 1]) && RecordOk(a.threads, recs[r - 1]);
      assert index == 1 ==> !prev.busy;
      if prev.busy && Reaches(lastYield, prev.seen[this.index]) {
        return true;
      }
      if mo == SeqCst && rec.seqCst {
        return true;
      }
      if acqRel[rec.threadId] >= rec.stamp {
        return true;
      }
      stop := false;
      for u := 0 to acqRel.Length
        invariant !stop && forall x :: 0 <= x < u ==> !Reaches(th.clock[x], recs[r].seen[x])
      {
        if Reaches(acqRel[u], rec.seen[u]) {
          assert Reaches(th.clock[u], recs[r].seen[u]);
          return true;
        }
      }
    }

    /** One round of the loop of get_load_index: whether the load looks past the record at `index`. */
    method LooksPast(a: AtomicData, index: nat, mo: Order) returns (go: bool)
      requires Valid() && a.Valid() && a.threads == acqRel.Length
      requires index <= |a.mo| <= index + 1
      ensures go == (index > 0 && !Stops(View(), this.index, a.mo, index - 1, mo))
    {
      a.SlotBusy(index);
      if !a.history[index % 3].busy {
        return false;
      }
      var stop := MustStop(a, index, mo);
      go := !stop;
    }

    /** The loop of get_load_index. Index 0 is the slot before the first record. */
    method SearchBack(a: AtomicData, mo: Order, stay: seq<bool>) returns (index: nat)
      requires Valid() && a.Valid() && a.threads == acqRel.Length
      requires |stay| < 3
      ensures EndsAt(StopFlags(View(), this.index, a.mo, mo), stay, index - 1)
    {
      ghost var stops := StopFlags(View(), this.index, a.mo, mo);
      index := a.currentIndex;
      assert index == |stops|;
      hide *;
      var i := 0;
      while i != |stay|
        invariant 0 <= i <= |stay| && index == |stops| - i
        invariant forall x :: index <= x < |stops| ==> !stops[x]
        invariant forall j :: 0 <= j < i ==> !stay[j]
        decreases |stay| - i
      {
        var go := LooksPast(a, index, mo);
        if !go || stay[i] {
          break;
        }
        index := index - 1;
        i := i + 1;
      }
      EndsIntro(stops, stay, index - 1, i);
    }

    /** get_load_index; `ok` is false where the source returns (unsigned)-1. */
    method GetLoadIndex(a: AtomicData, mo: Order, rmw: bool, stay: seq<bool>) returns (ok: bool, index: nat)
      requires Valid() && a.Valid() && a.threads == acqRel.Length
      requires |stay| < 3
      ensures if rmw then index == |a.mo| else EndsAt(StopFlags(View(), this.index, a.mo, mo), stay, index - 1)
      ensures ok == (index > 0)
    {
      if rmw {
        index := a.currentIndex;
      } else {
        index := SearchBack(a, mo, stay);
      }
      a.SlotBusy(index);
      ok := a.history[index % 3].busy;
    }

    /** The record a load reads: mark it seen, and merge its clock. */
    method ReadRecord(a: AtomicData, index: nat, mo: Order)
      requires Valid() && a.Valid() && a.threads == acqRel.Length
      requires 0 < index <= |a.mo| <= index + 2
      requires a.history != acqRel as object && a.history != acquireFence as object
      modifies acqRel, acquireFence, a.history, a`mo
      ensures a.Valid()
      ensures LoadDone(old(View()), this.index, old(a.mo), index - 1, mo, View(), a.mo)
    {
      var rec := a.history[index % 3];
      ghost var r, th := a.mo[index - 1], View();
      assert a.Live(index) && RecordOk(a.threads, r);
      acqRel[this.index] := acqRel[this.index] + 1;
      assert acqRel[..] == Tick(th.clock, this.index);
      a.MarkSlot(index, this.index, acqRel[this.index]);
      if Acquires(mo) {
        MergeClock(acqRel, rec.order);
      } else {
        MergeClock(acquireFence, rec.order);
      }
    }

    /** atomic_load */
    method AtomicLoad(a: AtomicData, mo: Order, rmw: bool, stay: seq<bool>) returns (ok: bool, index: nat)
      requires Valid() && a.Valid() && a.threads == acqRel.Length && |stay| < 3
      requires a.history != acqRel as object && a.history != acquireFence as object
      modifies acqRel, acquireFence, a.history, a`mo
      ensures a.Valid()
      ensures old(if rmw then index == |a.mo| else EndsAt(StopFlags(View(), this.index, a.mo, mo), stay, index - 1))
      ensures ok == (index > 0) && (ok ==> index <= old(|a.mo|))
      ensures !ok ==> a.mo == old(a.mo) && View() == old(View())
      ensures ok ==> LoadDone(old(View()), this.index, old(a.mo), index - 1, mo, View(), a.mo)
    {
      ok, index := GetLoadIndex(a, mo, rmw, stay);
      if ok {
        ReadRecord(a, index, mo);
      }
    }

    /** atomic_store, with the value that store_impl puts next to the record. */
    method AtomicStore(a: AtomicData, mo: Order, rmw: bool, value: int) returns (index: nat)
      requires Valid() && a.Valid() && a.threads == acqRel.Length
      requires a.history != acqRel as object && a.values != acqRel as object
      modifies acqRel, a.history, a.values, a`mo, a`currentIndex, a`value, a`initialized
      ensures a.Valid() && index == |a.mo|
      ensures StoreDone(old(View()), this.index, old(a.mo), mo, rmw, value, View(), a.mo)
    {
      ghost var prior, th := a.mo, View();
      a.SlotBusy(a.currentIndex);
      var prev := a.history[a.currentIndex % 3];
      assert prior != [] ==> a.Live(|prior|) && RecordOk(a.threads, prior[|prior| - 1]);
      acqRel[this.index] := acqRel[this.index] + 1;
      var own := acqRel[this.index];
      assert acqRel[..] == Tick(th.clock, this.index);
      var preserve := prev.busy && (rmw || this.index == prev.threadId);
      var mine := if Releases(mo) then acqRel[..] else releaseFence[..];
      var order := if preserve then Max(prev.order, mine) else mine;
      var self := this.index;
      var seen := seq(acqRel.Length, u => if u == self then SeenAt(own) else Never);
      ghost var rec := StoreRecord(th, this.index, prior, mo, rmw, value);
      assert rec.order == order && rec.seen == seen;
      index := a.Append(Slot(true, this.index, mo == SeqCst, own, order, seen), value, rec);
    }

    /** atomic_rmw: the load half reads the newest record, the store half follows at once. */
    method AtomicRmw(a: AtomicData, mo: Order, value: int) returns (index: nat, aba: bool)
      requires Valid() && a.Valid() && a.threads == acqRel.Length && a.initialized
      requires a.history != acqRel as object && a.history != acquireFence as object && a.values != acqRel as object
               && a.values != acquireFence as object
      modifies acqRel, acquireFence, a.history, a.values, a`mo, a`currentIndex, a`value, a`initialized
      ensures a.Valid() && index == |a.mo|
      ensures aba == (old(a.mo)[|old(a.mo)| - 1].seen[this.index] == Never)
      ensures RmwDone(old(View()), this.index, old(a.mo), mo, value, View(), a.mo)
    {
      ghost var recs := a.mo;
      assert |recs| > 0 && a.Live(|recs|) && RecordOk(a.threads, recs[|recs| - 1]);
      aba := a.history[a.currentIndex % 3].seen[this.index] == Never;
      hide *;
      var ok, i := AtomicLoad(a, mo, true, []);
      ghost var mid, marked := View(), a.mo;
      index := AtomicStore(a, mo, true, value);
      RmwIntro(old(View()), this.index, recs, mo, value, mid, marked, View(), a.mo);
    }

    /** generic_atomic::rmw_impl; `ok` is false for an uninitialised atomic. */
    method RmwImpl(a: AtomicData, newValue: int -> int, mo: Order) returns (ok: bool, prior: int)
      requires Valid() && a.Valid() && a.threads == acqRel.Length
      requires a.history != acqRel as object && a.history != acquireFence as object && a.values != acqRel as object
               && a.values != acquireFence as object
      modifies acqRel, acquireFence, a.history, a.values, a`mo, a`currentIndex, a`value, a`initialized
      ensures a.Valid() && ok == old(a.initialized)
      ensures !ok ==> a.mo == old(a.mo) && View() == old(View())
      ensures ok ==> prior == old(a.mo)[|old(a.mo)| - 1].value
      ensures ok ==> RmwDone(old(View()), this.index, old(a.mo), mo, newValue(prior), View(), a.mo)
    {
      if !a.initialized {
        return false, 0;
      }
      prior := a.value;
      hide RmwDone;
      var index, aba := AtomicRmw(a, mo, newValue(prior));
      ok := true;
    }

    /** Whether a weak compare_swap fails although the values agree: at most once per atomic under the
        exhaustive scheduler, any number of times under the random one. `fail` is the scheduler's answer. */
    method FailsSpuriously(a: AtomicData, weak: bool, random: bool, fail: bool) returns (spurious: bool)
      requires a.Valid()
      modifies a`alreadyFailed
      ensures a.Valid() && spurious == (weak && fail && (random || !old(a.alreadyFailed)))
      ensures a.alreadyFailed == (old(a.alreadyFailed) || (spurious && !random))
    {
      spurious := false;
      if weak {
        if random {
          spurious := fail;
        } else if !a.alreadyFailed {
          spurious := fail;
          if spurious {
            a.alreadyFailed := true;
          }
        }
      }
    }

    /** generic_atomic::compare_swap_impl; `ok` is false for an uninitialised atomic, `current` is the value found. */
    method CompareSwapImpl(a: AtomicData, cmp: int, xchg: int, mo: Order, failureMo: Order, weak: bool, random: bool,
        fail: bool)
      returns (ok: bool, success: bool, current: int)
      requires Valid() && a.Valid() && a.threads == acqRel.Length
      requires a.history != acqRel as object && a.history != acquireFence as object && a.values != acqRel as object
               && a.values != acquireFence as object
      modifies acqRel, acquireFence, a.history, a.values, a`mo, a`currentIndex, a`value, a`initialized, a`alreadyFailed
      ensures a.Valid() && ok == old(a.initialized)
      ensures !ok ==> a.mo == old(a.mo) && View() == old(View()) && !success
      ensures ok ==> current == old(a.mo)[|old(a.mo)| - 1].value
      ensures ok ==> (success <==> current == cmp && !(weak && fail && (random || !old(a.alreadyFailed))))
      ensures success ==> RmwDone(old(View()), this.index, old(a.mo), mo, xchg, View(), a.mo)
      ensures ok && !success ==> LoadDone(old(View()), this.index, old(a.mo), |old(a.mo)| - 1, failureMo, View(), a.mo)
    {
      success := false;
      current := 0;
      ok := a.initialized;
      if !ok {
        return;
      }
      current := a.value;
      if current == cmp {
        var spurious := FailsSpuriously(a, weak, random, fail);
        success := !spurious;
      }
      hide *;
      if success {
        var index, aba := AtomicRmw(a, mo, xchg);
      } else {
        var loaded, index := AtomicLoad(a, failureMo, true, []);
      }
    }
  }

  // ---- sync variables

  /** acquire: a tick, and the thread takes on the variable's clock. */
  predicate AcquireDone(th: Thread, t: nat, order: Clock, th': Thread) {
    t < |th.clock| == |order| && th' == th.(clock := Max(Tick(th.clock, t), order))
  }

  /** release: a tick, and the variable takes on the thread's clock. */
  predicate ReleaseDone(th: Thread, t: nat, order: Clock, th': Thread, order': Clock) {
    t < |th.clock| == |order| && th' == th.(clock := Tick(th.clock, t)) && order' == Max(order, th'.clock)
  }

  predicate AcqRelDone(th: Thread, t: nat, order: Clock, th': Thread, order': Clock) {
    AcquireDone(th, t, order, th') && order' == Max(order, th'.clock)
  }

  /** The sync variable events of a run do this. */
  lemma SyncEvent(c: Config, s: State, e: Event)
    requires Typed(c, s) && InRange(c, e) && (e.SyncAcquire? || e.SyncRelease? || e.SyncAcqRel?)
    ensures Enabled(c, s, e)
    ensures var r := Apply(c, s, e);
            && (e.SyncAcquire? ==> AcquireDone(s.threads[e.t], e.t, s.syncs[e.s], r.threads[e.t]) && r.syncs == s.syncs)
            && (e.SyncRelease? ==> ReleaseDone(s.threads[e.t], e.t, s.syncs[e.s], r.threads[e.t], r.syncs[e.s]))
            && (e.SyncAcqRel? ==> AcqRelDone(s.threads[e.t], e.t, s.syncs[e.s], r.threads[e.t], r.syncs[e.s]))
  {
  }

  class SyncVar {
    const order: array<nat>

    constructor (threads: nat)
      ensures order.Length == threads && order[..] == Zeros(threads) && fresh(order)
    {
      order := new nat[threads](_ => 0);
    }

    predicate Fits(th: ThreadInfo)
    {
      && th.index < th.acqRel.Length == order.Length
      && order != th.acqRel && order != th.acquireFence && order != th.releaseFence
    }

    method Acquire(th: ThreadInfo)
      requires th.Valid() && Fits(th)
      modifies th.acqRel
      ensures AcquireDone(old(th.View()), th.index, order[..], th.View())
    {
      th.acqRel[th.index] := th.acqRel[th.index] + 1;
      AssignMax(th.acqRel, order);
    }

    method Release(th: ThreadInfo)
      requires th.Valid() && Fits(th)
      modifies th.acqRel, order
      ensures ReleaseDone(old(th.View()), th.index, old(order[..]), th.View(), order[..])
    {
      th.acqRel[th.index] := th.acqRel[th.index] + 1;
      AssignMax(order, th.acqRel);
    }

    method AcqRel(th: ThreadInfo)
      requires th.Valid() && Fits(th)
      modifies th.acqRel, order
      ensures AcqRelDone(old(th.View()), th.index, old(order[..]), th.View(), order[..])
    {
      th.acqRel[th.index] := th.acqRel[th.index] + 1;
      AssignMax(th.acqRel, order);
      AssignMax(order, th.acqRel);
    }
  }

  // ---- plain variables

  /** A load by thread t: refused if the variable is uninitialised or if a store is not known; else one stamp. */
  predicate VarLoadDone(th: Thread, t: nat, v: Var, ok: bool, th': Thread, v': Var) {
    && t < |th.clock| == |v.loads| == |v.stores|
    && (ok <==> v.initialized && LoadPasses(th.clock, v))
    && th' == (if ok then th.(clock := Tick(th.clock, t)) else th)
    && v' == if ok then v.(loads := v.loads[t := th.clock[t] + 1]) else v
  }

  /** A store: the first one is not checked, a later one is refused if a store or a load is not known. */
  predicate VarStoreDone(th: Thread, t: nat, v: Var, ok: bool, th': Thread, v': Var) {
    && t < |th.clock| == |v.loads| == |v.stores|
    && (ok <==> (v.initialized ==> StorePasses(th.clock, v)))
    && th' == (if ok then th.(clock := Tick(th.clock, t)) else th)
    && v' == if ok then v.(stores := v.stores[t := th.clock[t] + 1], initialized := true) else v
  }

  /** The plain accesses of a run do this; a refused one is not enabled and changes nothing. */
  lemma VarEvent(c: Config, s: State, e: Event)
    requires Typed(c, s) && InRange(c, e) && (e.VarLoad? || e.VarStore?)
    ensures var (r, ok) := (Apply(c, s, e), Enabled(c, s, e));
            && (e.VarLoad? ==> VarLoadDone(s.threads[e.t], e.t, s.vars[e.v], ok, r.threads[e.t], r.vars[e.v]))
            && (e.VarStore? ==> VarStoreDone(s.threads[e.t], e.t, s.vars[e.v], ok, r.threads[e.t], r.vars[e.v]))
  {
  }

  class VarData {
    const loads: array<nat>
    const stores: array<nat>
    var initialized: bool

    constructor (threads: nat)
      ensures Valid() && loads.Length == threads
      ensures View() == Var(Zeros(threads), Zeros(threads), false) && fresh(loads) && fresh(stores)
    {
      loads := new nat[threads](_ => 0);
      stores := new nat[threads](_ => 0);
      initialized := false;
    }

    ghost predicate Valid()
    {
      loads.Length == stores.Length && loads != stores
    }

    function View(): Var
      reads this, loads, stores
    {
      Var(loads[..], stores[..], initialized)
    }

    predicate Fits(th: ThreadInfo)
    {
      && th.index < th.acqRel.Length == loads.Length
      && loads != th.acqRel && stores != th.acqRel && loads != th.acquireFence && stores != th.acquireFence
      && loads != th.releaseFence && stores != th.releaseFence
    }

    /** var::load with var_data_impl::load: refused if uninitialised or if a store is not known. */
    method Load(th: ThreadInfo) returns (ok: bool)
      requires Valid() && th.Valid() && Fits(th)
      modifies loads, th.acqRel
      ensures VarLoadDone(old(th.View()), th.index, old(View()), ok, th.View(), View())
    {
      if !initialized {
        return false;
      }
      for i := 0 to th.acqRel.Length
        invariant forall u :: 0 <= u < i ==> th.acqRel[u] >= stores[u]
      {
        if th.acqRel[i] < stores[i] {
          return false;
        }
      }
      th.acqRel[th.index] := th.acqRel[th.index] + 1;
      loads[th.index] := th.acqRel[th.index];
      ok := true;
    }

    /** var::store: the first store only stamps (var_data_impl::init), later ones are checked. */
    method Store(th: ThreadInfo) returns (ok: bool)
      requires Valid() && th.Valid() && Fits(th)
      modifies this`initialized, stores, th.acqRel
      ensures VarStoreDone(old(th.View()), th.index, old(View()), ok, th.View(), View())
    {
      if initialized {
        for i := 0 to th.acqRel.Length
          invariant forall u :: 0 <= u < i ==> th.acqRel[u] >= stores[u] && th.acqRel[u] >= loads[u]
        {
          if th.acqRel[i] < stores[i] {
            return false;
          }
          if th.acqRel[i] < loads[i] {
            return false;
          }
        }
      }
      initialized := true;
      th.acqRel[th.index] := th.acqRel[th.index] + 1;
      stores[th.index] := th.acqRel[th.index];
      ok := true;
    }
  }

  // ---- the global fence

  predicate Separate(threads: seq<ThreadInfo>) {
    && (forall i :: 0 <= i < |threads| ==> threads[i].index == i && threads[i].acqRel.Length == |threads|)
    && (forall i, j :: 0 <= i < j < |threads| ==> threads[i].acqRel != threads[j].acqRel)
  }

  /** All clocks get max, the largest of the own timestamps, in every entry. */
  ghost predicate GlobalDone(clocks: seq<Clock>, clocks': seq<Clock>, max: nat) {
    && |clocks'| == |clocks|
    && (forall i :: 0 <= i < |clocks| ==> i < |clocks[i]| && clocks[i][i] <= max)
    && (max == 0 || exists i :: 0 <= i < |clocks| && i < |clocks[i]| && clocks[i][i] == max)
    && forall i :: 0 <= i < |clocks| ==> clocks'[i] == seq(|clocks|, u => max)
  }

  function ClocksOf(threads: seq<Thread>): seq<Clock> {
    seq(|threads|, i requires 0 <= i < |threads| => threads[i].clock)
  }

  /** The global fence of a run does this, and nothing else does. */
  lemma GlobalFenceEvent(c: Config, s: State, after: seq<Clock>, max: nat)
    requires Typed(c, s) && GlobalDone(ClocksOf(s.threads), after, max)
    ensures ClocksOf(Apply(c, s, GlobalFence).threads) == after
  {
    var m := MaxOwn(s.threads, c.threads);
    assert forall i :: 0 <= i < c.threads ==> ClocksOf(s.threads)[i][i] == s.threads[i].clock[i];
    assert m == max;
  }

  function Snapshot(threads: seq<ThreadInfo>): (clocks: seq<Clock>)
    reads set i | 0 <= i < |threads| :: threads[i].acqRel
    ensures |clocks| == |threads| && forall i :: 0 <= i < |threads| ==> clocks[i] == threads[i].acqRel[..]
  {
    seq(|threads|, i requires 0 <= i < |threads| reads set k | 0 <= k < |threads| :: threads[k].acqRel =>
      threads[i].acqRel[..])
  }

  /** rl_global_fence: every entry of every clock becomes the largest own timestamp. */
  method RlGlobalFence(threads: seq<ThreadInfo>) returns (max: nat)
    requires Separate(threads)
    modifies set i | 0 <= i < |threads| :: threads[i].acqRel
    ensures GlobalDone(old(Snapshot(threads)), Snapshot(threads), max)
  {
    ghost var before := Snapshot(threads);
    max := 0;
    for i := 0 to |threads|
      invariant forall j :: 0 <= j < i ==> threads[j].acqRel[j] <= max
      invariant max == 0 || exists j :: 0 <= j < |threads| && threads[j].acqRel[j] == max
    {
      if threads[i].acqRel[i] > max {
        max := threads[i].acqRel[i];
      }
    }
    for i := 0 to |threads|
      invariant forall k, j :: 0 <= k < i && 0 <= j < |threads| ==> threads[k].acqRel[j] == max
    {
      Fill(threads[i].acqRel, max);
    }
    forall i | 0 <= i < |threads|
      ensures Snapshot(threads)[i] == seq(|threads|, u => max)
    {
      assert threads[i].acqRel[..] == seq(|threads|, u => max);
    }
  }
}
