/** The counting semaphore: post hands its permits over to parked threads one by one, each of which runs
    at once and takes its permit before post goes on. Counts are 32-bit unsigned, as in the source. */
module Semaphore {
  import opened WaitSets
  import Mem = Memory

  const INT_MAX := 0x7fff_ffff
  const MODULUS := 0x1_0000_0000

  /** unsigned addition */
  function Add(a: nat, b: nat): (r: nat) {
    (a + b) % 0x1_0000_0000
  }

  datatype Sema = Sema(count: nat, max: nat, waiters: seq<nat>)

  /** One operation of a thread; Timeout and Spurious end a parked wait without a permit. */
  datatype Op = Wait(t: nat, try: bool) | Leave(t: nat) | Post(n: nat, picks: seq<nat>)

  datatype Reason = Success | Failed | Parked | Left

  /** What an operation of thread t does to the memory, in order; v is the semaphore's sync_var. Whoever takes or brings
      permits does acq_rel, and a post does so before those it serves; whoever goes away empty-handed acquires. */
  function Events(s: Sema, t: nat, op: Op, v: nat): seq<Mem.Event>
    requires CanDo(s, op)
  {
    match op
    case Wait(_, try) =>
      if s.count > 0 then [Mem.SyncAcqRel(t, v)] else if try then [Mem.SyncAcquire(t, v)] else []
    case Leave(_) => [Mem.SyncAcquire(t, v)]
    case Post(n, picks) =>
      if Accepts(s, n) then [Mem.SyncAcqRel(t, v)] + Takers(HandOff(s.waiters, picks, n).1, v)
      else [Mem.SyncAcquire(t, v)]
  }

  function Takers(served: seq<nat>, v: nat): (r: seq<Mem.Event>)
    ensures |r| == |served| && forall i :: 0 <= i < |served| ==> r[i] == Mem.SyncAcqRel(served[i], v)
  {
    seq(|served|, i requires 0 <= i < |served| => Mem.SyncAcqRel(served[i], v))
  }

  lemma TakersMore(served: seq<nat>, t: nat, v: nat)
    ensures Takers(served + [t], v) == Takers(served, v) + [Mem.SyncAcqRel(t, v)]
  {
  }

  /** The condition under which post takes effect. */
  predicate Accepts(s: Sema, n: nat) {
    !(n >= INT_MAX || Add(n, s.count) > s.max)
  }

  /** Exactly when a post is accepted: the permits fit, or the 32-bit sum of the two counts has wrapped around and then
      fits; up to INT_MAX + 2 it does not wrap. */
  lemma AcceptedExactly(s: Sema, n: nat)
    requires s.max <= INT_MAX && s.count < MODULUS && n < MODULUS
    ensures Accepts(s, n) <==>
              n < INT_MAX && (n + s.count <= s.max || MODULUS <= n + s.count <= MODULUS + s.max)
    ensures s.count <= INT_MAX + 2 ==> (Accepts(s, n) <==> n < INT_MAX && n + s.count <= s.max)
  {
    if n + s.count >= MODULUS {
      assert Add(n, s.count) == n + s.count - MODULUS;
    }
  }

  /** The random choices of post: one for each thread it unparks. */
  predicate PicksOk(waiters: seq<nat>, picks: seq<nat>, n: nat)
    decreases n
  {
    waiters != [] && n > 0 ==>
        picks != [] && picks[0] < |waiters| && PicksOk(Without(waiters, picks[0]), picks[1..], n - 1)
  }

  /** The hand-off loop of post: who stays parked, and who was served, in order. */
  function HandOff(waiters: seq<nat>, picks: seq<nat>, n: nat): (r: (seq<nat>, seq<nat>))
    requires PicksOk(waiters, picks, n)
    ensures |r.0| + |r.1| == |waiters| && |r.1| == (if n < |waiters| then n else |waiters|)
    decreases n
  {
    if waiters == [] || n == 0 then (waiters, [])
    else
      var (left, served) := HandOff(Without(waiters, picks[0]), picks[1..], n - 1);
      (left, [waiters[picks[0]]] + served)
  }

  predicate CanDo(s: Sema, op: Op) {
    match op
    case Wait(t, _) => t !in s.waiters
    case Leave(t) => t in s.waiters
    case Post(n, picks) => n < 0x1_0000_0000 && PicksOk(s.waiters, picks, n)
  }

  /** How many permits an operation of the run takes away for good, and how many it brings. */
  function Taken(s: Sema, op: Op): nat
    requires CanDo(s, op)
  {
    match op
    case Wait(_, _) => if s.count > 0 then 1 else 0
    case Leave(_) => 0
    case Post(n, picks) => if Accepts(s, n) then |HandOff(s.waiters, picks, n).1| else 0
  }

  function Posted(s: Sema, op: Op): nat {
    if op.Post? && Accepts(s, op.n) then op.n else 0
  }

  function Next(s: Sema, op: Op): Sema
    requires CanDo(s, op)
  {
    match op
    case Wait(t, try) =>
      if s.count > 0 then s.(count := s.count - 1)
      else if try then s
      else s.(waiters := s.waiters + [t])
    case Leave(t) => s.(waiters := Without(s.waiters, Index(s.waiters, t)))
    case Post(n, picks) =>
      if !Accepts(s, n) then s
      else
        var (left, served) := HandOff(s.waiters, picks, n);
        var up := Add(s.count, n);
        s.(count := if up >= |served| then up - |served| else 0, waiters := left)
  }

  // ---- what every run keeps

  /** The state after a run, with the permits posted and taken so far. */
  datatype Run = Run(sema: Sema, posted: nat, taken: nat)

  function Start(initial: nat, max: nat): Run {
    Run(Sema(initial, max, []), 0, 0)
  }

  ghost predicate Reached(initial: nat, max: nat, ops: seq<Op>, r: Run)
    decreases |ops|
  {
    if ops == [] then r == Start(initial, max)
    else
      var op := ops[|ops| - 1];
      exists p :: Reached(initial, max, ops[..|ops| - 1], p) && CanDo(p.sema, op)
             && r == Run(Next(p.sema, op), p.posted + Posted(p.sema, op), p.taken + Taken(p.sema, op))
  }

  /** The permits that exist are those there were, plus the posted, minus the taken; a thread is parked
      only while there is none; and the count stays within its bound. */
  ghost predicate Inv(initial: nat, max: nat, r: Run) {
    && r.sema.max == max && Distinct(r.sema.waiters)
    && r.sema.count + r.taken == initial + r.posted
    && (r.sema.waiters != [] ==> r.sema.count == 0)
    && (r.sema.count <= max || r.sema.count <= initial)
  }

  lemma {:induction false} HandOffKeeps(waiters: seq<nat>, picks: seq<nat>, n: nat)
    requires PicksOk(waiters, picks, n) && Distinct(waiters)
    ensures var (left, served) := HandOff(waiters, picks, n);
            && Distinct(left) && Distinct(served)
            && (forall t :: t in left ==> t in waiters && t !in served)
            && (forall t :: t in served ==> t in waiters)
            && (forall t :: t in waiters ==> t in left || t in served)
    decreases n
  {
    if waiters != [] && n > 0 {
      var rest := Without(waiters, picks[0]);
      HandOffKeeps(rest, picks[1..], n - 1);
      var (left, served) := HandOff(rest, picks[1..], n - 1);
      var t := waiters[picks[0]];
      hide HandOff, PicksOk;
      var all := [t] + served;
      assert forall x :: x in all <==> x == t || x in served;
      assert t in waiters && t !in rest;
      assert forall x :: x in waiters <==> x == t || x in rest;
    }
  }

  /** The hand-off loop after i permits: what is left of it completes what was done. */
  ghost predicate Progress(was: seq<nat>, picks: seq<nat>, n: nat, i: nat, waiters: seq<nat>, served: seq<nat>) {
    && i <= n && (waiters != [] ==> i <= |picks|) && PicksOk(was, picks, n)
    && var rest := if i <= |picks| then picks[i..] else [];
       && PicksOk(waiters, rest, n - i)
       && HandOff(was, picks, n) == (HandOff(waiters, rest, n - i).0, served + HandOff(waiters, rest, n - i).1)
  }

  lemma ProgressStart(was: seq<nat>, picks: seq<nat>, n: nat)
    requires PicksOk(was, picks, n)
    ensures Progress(was, picks, n, 0, was, [])
  {
    assert picks[0..] == picks;
    assert [] + HandOff(was, picks, n).1 == HandOff(was, picks, n).1;
  }

  lemma ProgressStep(was: seq<nat>, picks: seq<nat>, n: nat, i: nat, waiters: seq<nat>, served: seq<nat>)
    requires Progress(was, picks, n, i, waiters, served) && waiters != [] && i < n
    ensures i < |picks| && picks[i] < |waiters|
    ensures Progress(was, picks, n, i + 1, Without(waiters, picks[i]), served + [waiters[picks[i]]])
  {
    assert picks[i..][1..] == picks[i + 1..];
    var more := HandOff(Without(waiters, picks[i]), picks[i + 1..], n - (i + 1)).1;
    assert (served + [waiters[picks[i]]]) + more == served + ([waiters[picks[i]]] + more);
  }

  lemma ProgressEnd(was: seq<nat>, picks: seq<nat>, n: nat, i: nat, waiters: seq<nat>, served: seq<nat>)
    requires Progress(was, picks, n, i, waiters, served) && (waiters == [] || i == n)
    ensures HandOff(was, picks, n) == (waiters, served)
  {
    assert served + [] == served;
  }

  /** The sum that post compares with the maximum does not wrap around while the count is at most INT_MAX + 2. */
  lemma NoOverflow(s: Sema, n: nat)
    requires s.count <= INT_MAX + 2 && n < INT_MAX
    ensures Add(n, s.count) == n + s.count == Add(s.count, n)
  {
  }

  lemma Step(initial: nat, max: nat, r: Run, op: Op)
    requires Inv(initial, max, r) && CanDo(r.sema, op) && max <= INT_MAX && initial <= INT_MAX + 2
    ensures Inv(initial, max, Run(Next(r.sema, op), r.posted + Posted(r.sema, op), r.taken + Taken(r.sema, op)))
  {
    if op.Post? && Accepts(r.sema, op.n) {
      HandOffKeeps(r.sema.waiters, op.picks, op.n);
      NoOverflow(r.sema, op.n);
    }
  }

  /** Main theorem: conservation of permits, the bound, and no lost wakeup, in every reachable state. */
  lemma {:induction false} Always(initial: nat, max: nat, ops: seq<Op>, r: Run)
    requires Reached(initial, max, ops, r) && max <= INT_MAX && initial <= INT_MAX + 2
    ensures Inv(initial, max, r)
    decreases |ops|
  {
    if ops != [] {
      var op := ops[|ops| - 1];
      var p :| Reached(initial, max, ops[..|ops| - 1], p) && CanDo(p.sema, op)
          && r == Run(Next(p.sema, op), p.posted + Posted(p.sema, op), p.taken + Taken(p.sema, op));
      Always(initial, max, ops[..|ops| - 1], p);
      hide Next, Posted, Taken, CanDo;
      Step(initial, max, p, op);
    }
  }

  /** Nothing checks the initial count. From INT_MAX + 3 on, permits can vanish: one post wraps the count to 0. */
  lemma WrapAround(initial: nat, max: nat)
    requires INT_MAX + 2 < initial < MODULUS && max <= INT_MAX
    ensures var n := MODULUS - initial;
            var r := Start(initial, max);
            CanDo(r.sema, Post(n, [])) && Accepts(r.sema, n) && Next(r.sema, Post(n, [])).count == 0
  {
  }

  /** Permits are conserved over every run exactly when the initial count is at most INT_MAX + 2. */
  lemma ConservedExactly(initial: nat, max: nat)
    requires max <= INT_MAX && initial < MODULUS
    ensures (forall ops, r :: Reached(initial, max, ops, r) ==> r.sema.count + r.taken == initial + r.posted)
            <==> initial <= INT_MAX + 2
  {
    if initial <= INT_MAX + 2 {
      forall ops, r | Reached(initial, max, ops, r)
        ensures r.sema.count + r.taken == initial + r.posted
      {
        Always(initial, max, ops, r);
      }
    } else {
      WrapAround(initial, max);
      var p, op := Start(initial, max), Post(MODULUS - initial, []);
      var ops := [op];
      assert ops[..0] == [] && Reached(initial, max, [], p);
      var r := Run(Next(p.sema, op), p.posted + Posted(p.sema, op), p.taken + Taken(p.sema, op));
      assert Reached(initial, max, ops, r);
    }
  }

  /** The count never exceeds the maximum exactly when it does not at the start. */
  lemma BoundedExactly(initial: nat, max: nat)
    requires max <= INT_MAX
    ensures (forall ops, r :: Reached(initial, max, ops, r) ==> r.sema.count <= max) <==> initial <= max
  {
    if initial <= max {
      forall ops, r | Reached(initial, max, ops, r)
        ensures r.sema.count <= max
      {
        Always(initial, max, ops, r);
      }
    } else {
      assert Reached(initial, max, [], Start(initial, max));
    }
  }

  /** The check of get_value never fails exactly when the initial count passes it. */
  lemma ValueCheckedExactly(initial: nat, max: nat)
    requires max <= INT_MAX
    ensures (forall ops, r :: Reached(initial, max, ops, r) ==> r.sema.count <= INT_MAX) <==> initial <= INT_MAX
  {
    if initial <= INT_MAX {
      forall ops, r | Reached(initial, max, ops, r)
        ensures r.sema.count <= INT_MAX
      {
        Always(initial, max, ops, r);
      }
    } else {
      assert Reached(initial, max, [], Start(initial, max));
    }
  }

  /** get_value: positive only when permits are free, negative only when threads are parked, and then their number. */
  lemma ValueMeans(initial: nat, max: nat, ops: seq<Op>, r: Run)
    requires Reached(initial, max, ops, r) && max <= INT_MAX && initial <= INT_MAX + 2
    ensures var value := r.sema.count - |r.sema.waiters|;
            (value >= 0 ==> r.sema.waiters == [] && value == r.sema.count)
              && (value < 0 ==> |r.sema.waiters| == -value && r.sema.count == 0)
  {
    Always(initial, max, ops, r);
  }

  // ---- the object

  /** sema_data_impl */
  class SemaData {
    const max: nat
    const sync: nat
    const waitset: WaitSet
    var count: nat

    constructor (initial: nat, max: nat, threads: nat, sync: nat)
      requires max <= INT_MAX && initial < MODULUS
      ensures Valid() && View() == Start(initial, max).sema && this.sync == sync
      ensures fresh(waitset) && fresh(waitset.slots)
    {
      this.max, this.sync := max, sync;
      waitset := new WaitSet(threads);
      count := initial;
    }

    ghost predicate Valid()
      reads this, waitset, waitset.slots
    {
      && waitset.Valid() && Distinct(waitset.Contents())
      && (waitset.Contents() != [] ==> count == 0)
      && count < MODULUS && max <= INT_MAX
      && forall x :: x in waitset.Contents() ==> x < waitset.slots.Length
    }

    ghost function View(): Sema
      reads this, waitset, waitset.slots
      requires waitset.Valid()
    {
      Sema(count, max, waitset.Contents())
    }

    /** wait, up to where the thread parks. What follows a normal wakeup is part of Post. */
    method Wait(t: nat, try: bool) returns (reason: Reason, events: seq<Mem.Event>)
      requires Valid() && t < waitset.slots.Length && t !in waitset.Contents()
      modifies this, waitset, waitset.slots
      ensures Valid() && View() == Next(old(View()), Op.Wait(t, try))
      ensures reason == if old(count) > 0 then Success else if try then Failed else Parked
      ensures events == Events(old(View()), t, Op.Wait(t, try), sync)
    {
      if count != 0 {
        count := count - 1;
        return Success, [Mem.SyncAcqRel(t, sync)];
      }
      if try {
        return Failed, [Mem.SyncAcquire(t, sync)];
      }
      RoomFor(waitset.Contents(), waitset.slots.Length, t);
      waitset.Enter(t);
      return Parked, [];
    }

    /** A timeout or a spurious wakeup of a parked thread. */
    method Resume(t: nat) returns (reason: Reason, events: seq<Mem.Event>)
      requires Valid() && t in waitset.Contents()
      modifies waitset, waitset.slots
      ensures Valid() && View() == Next(old(View()), Leave(t)) && reason == Left
      ensures events == Events(old(View()), t, Leave(t), sync)
    {
      waitset.Remove(t, Index(waitset.Contents(), t));
      return Left, [Mem.SyncAcquire(t, sync)];
    }

    /** post by thread t: `served` are the threads that took a permit from it. */
    method Post(t: nat, n: nat, picks: seq<nat>) returns (result: bool, prev: nat, served: seq<nat>,
        events: seq<Mem.Event>)
      requires Valid() && n < MODULUS && PicksOk(waitset.Contents(), picks, n)
      modifies this, waitset, waitset.slots
      ensures Valid() && View() == Next(old(View()), Op.Post(n, picks))
      ensures prev == old(count) && result == Accepts(old(View()), n)
      ensures old(count) <= INT_MAX + 2 ==> (result <==> n < INT_MAX && n + old(count) <= max)
      ensures old(count) > INT_MAX + 2 ==> (result <==> n < INT_MAX && MODULUS <= n + old(count) <= MODULUS + max)
      ensures served == if result then HandOff(old(waitset.Contents()), picks, n).1 else []
      ensures events == Events(old(View()), t, Op.Post(n, picks), sync)
    {
      AcceptedExactly(View(), n);
      result, prev, served := false, count, [];
      if !(n >= INT_MAX || Add(n, count) > max) {
        result := true;
        ghost var was := View();
        HandOffKeeps(was.waiters, picks, n);
        count := Add(count, n);
        events := [Mem.SyncAcqRel(t, sync)];
        hide HandOff, PicksOk, Takers;
        var more;
        served, more := Serve(n, picks);
        events := events + more;
      } else {
        events := [Mem.SyncAcquire(t, sync)];
      }
    }

    /** The loop of post: one thread after the other takes a permit and runs, while there are threads and permits. */
    method Serve(n: nat, picks: seq<nat>) returns (served: seq<nat>, events: seq<Mem.Event>)
      requires waitset.Valid() && Distinct(waitset.Contents()) && PicksOk(waitset.Contents(), picks, n)
      requires waitset.Contents() != [] ==> count == n
      modifies this`count, waitset, waitset.slots
      ensures waitset.Valid() && (waitset.Contents(), served) == HandOff(old(waitset.Contents()), picks, n)
      ensures count == old(count) - |served| && events == Takers(served, sync)
    {
      ghost var was := waitset.Contents();
      HandOffKeeps(was, picks, n);
      ProgressStart(was, picks, n);
      served, events := [], [];
      var i := 0;
      hide PicksOk, HandOff, Progress, Takers;
      while i != n
        invariant 0 <= i <= n && |served| == i && waitset.Valid() && Distinct(waitset.Contents())
        invariant count == old(count) - i && (was == [] ==> waitset.Contents() == [])
        invariant Progress(was, picks, n, i, waitset.Contents(), served) && events == Takers(served, sync)
        decreases n - i
      {
        if waitset.size == 0 {
          break;
        }
        ProgressStep(was, picks, n, i, waitset.Contents(), served);
        var unparked := waitset.UnparkOne(picks[i]);
        count := count - 1;
        TakersMore(served, unparked[0], sync);
        events := events + [Mem.SyncAcqRel(unparked[0], sync)];
        served := served + unparked;
        i := i + 1;
      }
      ProgressEnd(was, picks, n, i, waitset.Contents(), served);
    }

    /** get_value by thread t; `ok` is false where its check of the count fails. */
    method GetValue(t: nat) returns (ok: bool, value: int, events: seq<Mem.Event>)
      requires Valid()
      ensures ok == (count <= INT_MAX) && value == count - |waitset.Contents()| && events == [Mem.SyncAcquire(t, sync)]
      ensures value >= 0 <==> waitset.Contents() == []
    {
      ok, value := count <= INT_MAX, count - waitset.size;
      events := [Mem.SyncAcquire(t, sync)];
    }
  }
}
