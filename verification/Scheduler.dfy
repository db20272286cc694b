/** The scheduler's accounting: block counts, yield priorities and the lists of running, timed, spurious
    and dynamic threads. */
module Scheduler {
  import opened WaitSets
  import opened Sums

  datatype ThreadState = Running | Blocked | Finished

  /** All the arrays of the scheduler. `prio[y][t]` positive: t is blocked until y has been scheduled that many
      times more. `fault` is set where an RL_VERIFY fails. */
  datatype Sched = Sched(
    count: seq<nat>, state: seq<ThreadState>, prio: seq<seq<nat>>, since: seq<seq<nat>>, total: seq<nat>,
    running: seq<nat>, timed: seq<nat>, spurious: seq<nat>, dynamic: seq<nat>, finished: nat, fault: bool)

  predicate Shaped(s: Sched) {
    && |s.count| == |s.state| == |s.prio| == |s.since| == |s.total|
    && forall y :: 0 <= y < |s.count| ==> |s.prio[y]| == |s.since[y]| == |s.count|
  }

  function Fault(s: Sched): Sched {
    s.(fault := true)
  }

  function Put(row: seq<nat>, i: nat, v: nat): (r: seq<nat>)
    requires i < |row|
    ensures |r| == |row| && r[i] == v && forall j :: 0 <= j < |row| && j != i ==> r[j] == row[j]
  {
    row[i := v]
  }

  function PutPrio(s: Sched, y: nat, t: nat, p: nat, total: nat): (r: Sched)
    requires Shaped(s) && y < |s.count| && t < |s.count|
    ensures Shaped(r) && |r.count| == |s.count|
  {
    s.(prio := s.prio[y := Put(s.prio[y], t, p)], total := s.total[y := total])
  }

  function PutSince(s: Sched, y: nat, t: nat, k: nat): (r: Sched)
    requires Shaped(s) && y < |s.count| && t < |s.count|
    ensures Shaped(r) && |r.count| == |s.count|
  {
    s.(since := s.since[y := Put(s.since[y], t, k)])
  }

  // ---- blocking and unblocking

  function Unblock(s: Sched, t: nat): (r: Sched)
    requires Shaped(s) && t < |s.count|
    ensures Shaped(r) && |r.count| == |s.count|
  {
    if s.state[t] != Blocked || s.count[t] == 0 then Fault(s)
    else if s.count[t] > 1 then s.(count := s.count[t := s.count[t] - 1])
    else s.(count := s.count[t := 0], running := s.running + [t], state := s.state[t := Running])
  }

  /** The loop of on_thread_block: thread t gives up all that it blocks, from thread i on. */
  function PurgeRow(s: Sched, t: nat, i: nat): (r: Sched)
    requires Shaped(s) && t < |s.count| && i <= |s.count|
    ensures Shaped(r) && |r.count| == |s.count|
    decreases |s.count| - i
  {
    if i == |s.count| then s else PurgeRow(PurgeSlot(s, t, i), t, i + 1)
  }

  function PurgeSlot(s: Sched, t: nat, i: nat): (r: Sched)
    requires Shaped(s) && t < |s.count| && i < |s.count|
    ensures Shaped(r) && |r.count| == |s.count|
  {
    if s.prio[t][i] == 0 then s
    else Unblock(PutPrio(s, t, i, 0, if s.total[t] >= s.prio[t][i] then s.total[t] - s.prio[t][i] else 0), i)
  }

  function OnThreadBlock(s: Sched, t: nat): (r: Sched)
    requires Shaped(s) && t < |s.count|
    ensures Shaped(r) && |r.count| == |s.count|
  {
    if s.total[t] != 0 then PurgeRow(s, t, 0) else s
  }

  function Block(s: Sched, t: nat): (r: Sched)
    requires Shaped(s) && t < |s.count|
    ensures Shaped(r) && |r.count| == |s.count|
  {
    if s.state[t] == Finished then Fault(s)
    else
      var s1 := s.(count := s.count[t := s.count[t] + 1]);
      if s.count[t] > 0 then s1
      else if t !in s.running then Fault(s)
      else OnThreadBlock(s1.(running := Without(s.running, Index(s.running, t)), state := s.state[t := Blocked]), t)
  }

  /** purge_blocked_threads, from thread i on. */
  function PurgeAll(s: Sched, i: nat): (r: Sched)
    requires Shaped(s) && i <= |s.count|
    ensures Shaped(r) && |r.count| == |s.count|
    decreases |s.count| - i
  {
    if i == |s.count| then s else PurgeAll(OnThreadBlock(s, i), i + 1)
  }

  // ---- invariant

  /** How many threads block t. */
  function Column(prio: seq<seq<nat>>, t: nat): nat {
    if prio == [] then 0
    else Column(prio[..|prio| - 1], t) + if t < |prio[|prio| - 1]| && prio[|prio| - 1][t] > 0 then 1 else 0
  }

  ghost predicate Counts(s: Sched, ext: seq<int>)
  {
    |ext| == |s.count| && forall t :: 0 <= t < |s.count| ==> s.count[t] == ext[t] + Column(s.prio, t)
  }

  /** running_threads is the set of the threads with count 0, each once. */
  ghost predicate Lists(s: Sched)
    requires Shaped(s)
  {
    && (forall t :: 0 <= t < |s.count| ==> (s.state[t] == Running <==> s.count[t] == 0))
    && Distinct(s.running) && (forall t: nat :: t in s.running <==> t < |s.count| && s.state[t] == Running)
  }

  ghost predicate Rows(s: Sched)
    requires Shaped(s)
  {
    && (forall y :: 0 <= y < |s.count| ==> s.total[y] == Sum(s.prio[y]) && s.prio[y][y] == 0)
    && (forall t :: 0 <= t < |s.count| && s.state[t] == Finished ==> s.total[t] == 0 && Column(s.prio, t) == 0)
  }

  /** Block counts are the external reasons plus the yield priorities; the running list and the states go with them. */
  ghost predicate Base(s: Sched, ext: seq<int>) {
    Shaped(s) && !s.fault && Counts(s, ext) && Lists(s) && Rows(s)
  }

  lemma {:induction false} ColumnPut(prio: seq<seq<nat>>, y: nat, row: seq<nat>, t: nat)
    requires y < |prio| && |row| == |prio[y]|
    ensures Column(prio[y := row], t)
         == Column(prio, t) + (if t < |row| && row[t] > 0 then 1 else 0)
            - (if t < |row| && prio[y][t] > 0 then 1 else 0)
  {
    var n := |prio| - 1;
    if y < n {
      ColumnPut(prio[..n], y, row, t);
      assert prio[y := row][..n] == prio[..n][y := row];
    } else {
      assert prio[y := row][..n] == prio[..n];
    }
  }

  lemma {:induction false} ColumnHas(prio: seq<seq<nat>>, y: nat, t: nat)
    requires y < |prio| && t < |prio[y]| && prio[y][t] > 0
    ensures Column(prio, t) > 0
  {
    if y < |prio| - 1 {
      ColumnHas(prio[..|prio| - 1], y, t);
    }
  }

  lemma UnblockStep(s: Sched, ext: seq<int>, t: nat)
    requires Base(s, ext) && t < |s.count| && ext[t] >= 1 && s.state[t] != Finished
    ensures Base(Unblock(s, t), ext[t := ext[t] - 1])
  {
    hide Sum, Column;
  }

  lemma RowsPut(s: Sched, y: nat, t: nat, p: nat)
    requires Shaped(s) && Rows(s) && y < |s.count| && t < |s.count| && y != t
             && (p > 0 ==> s.state[y] != Finished && s.state[t] != Finished)
    ensures s.prio[y][t] <= s.total[y] && Rows(PutPrio(s, y, t, p, s.total[y] - s.prio[y][t] + p))
  {
    var row := Put(s.prio[y], t, p);
    SumPut(s.prio[y], t, p);
    SumHas(s.prio[y], t);
    hide Sum;
    forall u | 0 <= u < |s.count| && s.state[u] == Finished
      ensures Column(s.prio[y := row], u) == 0
    {
      ColumnPut(s.prio, y, row, u);
    }
    hide Column;
  }

  lemma CountsPut(s: Sched, ext: seq<int>, y: nat, t: nat, p: nat, total: nat)
    requires Shaped(s) && Counts(s, ext) && y < |s.count| && t < |s.count|
    ensures Counts(PutPrio(s, y, t, p, total),
            ext[t := ext[t] + (if s.prio[y][t] > 0 then 1 else 0) - (if p > 0 then 1 else 0)])
  {
    var row := Put(s.prio[y], t, p);
    forall u | 0 <= u < |s.count|
      ensures Column(s.prio[y := row], u)
           == Column(s.prio, u) + (if row[u] > 0 then 1 else 0) - (if s.prio[y][u] > 0 then 1 else 0)
    {
      ColumnPut(s.prio, y, row, u);
    }
    hide Column;
  }

  /** A yield priority changes between zero and positive: one reason less or more to be external. */
  lemma PrioStep(s: Sched, ext: seq<int>, y: nat, t: nat, p: nat)
    requires Base(s, ext) && y < |s.count| && t < |s.count| && y != t
             && (p > 0 ==> s.state[y] != Finished && s.state[t] != Finished)
    ensures s.prio[y][t] <= s.total[y] && |ext| == |s.count|
    ensures Base(PutPrio(s, y, t, p, s.total[y] - s.prio[y][t] + p),
                 ext[t := ext[t] + (if s.prio[y][t] > 0 then 1 else 0) - (if p > 0 then 1 else 0)])
  {
    RowsPut(s, y, t, p);
    CountsPut(s, ext, y, t, p, s.total[y] - s.prio[y][t] + p);
    hide Sum, Column, Rows, Counts;
  }

  /** Nothing but counts, states, priorities and the running list differs. */
  predicate SameLists(s: Sched, r: Sched) {
    && r.timed == s.timed && r.spurious == s.spurious && r.dynamic == s.dynamic && r.finished == s.finished
    && |r.count| == |s.count| && |r.state| == |s.state|
    && forall t :: 0 <= t < |s.state| ==> (r.state[t] == Finished <==> s.state[t] == Finished)
  }

  predicate NonNegative(ext: seq<int>) {
    forall i :: 0 <= i < |ext| ==> ext[i] >= 0
  }

  /** What purging thread t's row leaves alone. */
  predicate Spared(s: Sched, r: Sched, t: nat) {
    && SameLists(s, r) && r.since == s.since && |r.prio| == |s.prio| && t < |s.count| && t < |s.state|
    && r.count[t] == s.count[t] && r.state[t] == s.state[t]
    && forall y :: 0 <= y < |s.prio| && y != t ==> r.prio[y] == s.prio[y]
  }

  lemma SparedTwice(s: Sched, m: Sched, r: Sched, t: nat)
    requires Spared(s, m, t) && Spared(m, r, t)
    ensures Spared(s, r, t)
  {
  }

  predicate RowZero(s: Sched, t: nat, i: nat) {
    t < |s.prio| && forall j :: 0 <= j < i && j < |s.prio[t]| ==> s.prio[t][j] == 0
  }

  lemma PurgeOne(s: Sched, ext: seq<int>, t: nat, i: nat)
    requires Base(s, ext) && NonNegative(ext) && t < |s.count| && i < |s.count| && s.prio[t][i] > 0
    ensures s.total[t] >= s.prio[t][i]
    ensures var r := Unblock(PutPrio(s, t, i, 0, s.total[t] - s.prio[t][i]), i);
            Base(r, ext) && Spared(s, r, t) && (RowZero(s, t, i) ==> RowZero(r, t, i + 1))
  {
    assert i != t && s.state[i] != Finished by {
      ColumnHas(s.prio, t, i);
    }
    PrioStep(s, ext, t, i, 0);
    var m := PutPrio(s, t, i, 0, s.total[t] - s.prio[t][i]);
    assert ext[i := ext[i] + 1][i := ext[i]] == ext;
    hide Base;
    UnblockStep(m, ext[i := ext[i] + 1], i);
    assert m.count[i] > 0 by {
      BlockedCount(m, ext[i := ext[i] + 1], i);
    }
  }

  lemma BlockedCount(s: Sched, ext: seq<int>, i: nat)
    requires Base(s, ext) && i < |s.count| && ext[i] >= 1
    ensures s.count[i] > 0 && s.state[i] != Running
  {
  }

  /** r is s after thread t has given up all that it blocks. */
  ghost predicate PurgedBy(s: Sched, ext: seq<int>, t: nat, r: Sched) {
    Base(r, ext) && Spared(s, r, t) && RowZero(r, t, |s.count|)
  }

  lemma PurgedLater(s: Sched, m: Sched, ext: seq<int>, t: nat, r: Sched)
    requires Spared(s, m, t) && PurgedBy(m, ext, t, r)
    ensures PurgedBy(s, ext, t, r)
  {
    SparedTwice(s, m, r, t);
  }

  lemma PurgedDone(s: Sched, ext: seq<int>, t: nat)
    requires Base(s, ext) && t < |s.count| && RowZero(s, t, |s.count|)
    ensures PurgedBy(s, ext, t, s)
  {
    SparedSelf(s, t);
  }

  /** on_thread_block keeps the accounts, and leaves t blocking nobody. */
  lemma {:induction false} PurgeRowKeeps(s: Sched, ext: seq<int>, t: nat, i: nat)
    requires Base(s, ext) && NonNegative(ext) && t < |s.count| && i <= |s.count| && RowZero(s, t, i)
    ensures PurgedBy(s, ext, t, PurgeRow(s, t, i))
    decreases |s.count| - i
  {
    assert Shaped(s);
    hide Base, PurgeSlot, Spared, PurgedBy, RowZero, Shaped;
    if i == |s.count| {
      PurgedDone(s, ext, t);
    } else {
      PurgeSlotKeeps(s, ext, t, i);
      var m := PurgeSlot(s, t, i);
      PurgeRowKeeps(m, ext, t, i + 1);
      PurgedLater(s, m, ext, t, PurgeRow(m, t, i + 1));
    }
  }

  lemma PurgeSlotKeeps(s: Sched, ext: seq<int>, t: nat, i: nat)
    requires Base(s, ext) && NonNegative(ext) && t < |s.count| && i < |s.count| && RowZero(s, t, i)
    ensures Shaped(s) && Base(PurgeSlot(s, t, i), ext) && Spared(s, PurgeSlot(s, t, i), t)
            && RowZero(PurgeSlot(s, t, i), t, i + 1)
  {
    hide Base, Spared, Unblock, PutPrio, NonNegative;
    ShapeOf(s, ext);
    if s.prio[t][i] != 0 {
      hide RowZero;
      PurgeOne(s, ext, t, i);
    } else {
      SparedSelf(s, t);
    }
  }

  lemma SparedSelf(s: Sched, t: nat)
    requires Shaped(s) && t < |s.count|
    ensures Spared(s, s, t)
  {
  }

  lemma OnThreadBlockKeeps(s: Sched, ext: seq<int>, t: nat)
    requires Base(s, ext) && NonNegative(ext) && t < |s.count|
    ensures var r := OnThreadBlock(s, t);
            Base(r, ext) && Spared(s, r, t) && RowZero(r, t, |s.count|) && r.total[t] == 0
  {
    var r := OnThreadBlock(s, t);
    if s.total[t] != 0 {
      PurgeRowKeeps(s, ext, t, 0);
    } else {
      SparedSelf(s, t);
    }
    SumZero(s.prio[t]);
    SumZero(r.prio[t]);
    hide Sum, PurgeRow, Column, Spared;
  }

  lemma {:induction false} PurgeAllKeeps(s: Sched, ext: seq<int>, i: nat)
    requires Base(s, ext) && NonNegative(ext) && i <= |s.count|
    ensures var r := PurgeAll(s, i);
            Base(r, ext) && SameLists(s, r) && r.since == s.since
    decreases |s.count| - i
  {
    if i < |s.count| {
      OnThreadBlockKeeps(s, ext, i);
      hide Base, OnThreadBlock;
      PurgeAllKeeps(OnThreadBlock(s, i), ext, i + 1);
    }
  }

  /** Removing a thread from the running list. */
  lemma Stops(s: Sched, ext: seq<int>, t: nat)
    requires Base(s, ext) && t < |s.count| && s.state[t] == Running
    ensures t in s.running
    ensures Base(s.(count := s.count[t := s.count[t] + 1], running := Without(s.running, Index(s.running, t)),
            state := s.state[t := Blocked]),
                 ext[t := ext[t] + 1])
  {
    hide Sum, Column;
  }

  /** block_thread: one more external reason. */
  lemma BlockKeeps(s: Sched, ext: seq<int>, t: nat)
    requires Base(s, ext) && t < |s.count| && s.state[t] != Finished && NonNegative(ext[t := ext[t] + 1])
    ensures var r := Block(s, t);
            && Base(r, ext[t := ext[t] + 1]) && SameLists(s, r) && r.since == s.since && r.state[t] == Blocked
            && r.count[t] > 0
            && (s.count[t] > 0 ==> r.prio == s.prio && r.total == s.total)
            && (s.count[t] == 0 ==>
                  RowZero(r, t, |s.count|) && r.total[t] == 0
                    && forall y :: 0 <= y < |s.count| && y != t ==> r.prio[y] == s.prio[y])
  {
    ShapeOf(s, ext);
    if s.count[t] == 0 {
      Stops(s, ext, t);
      var m := s.(count := s.count[t := s.count[t] + 1], running := Without(s.running, Index(s.running, t)),
        state := s.state[t := Blocked]);
      assert Block(s, t) == OnThreadBlock(m, t);
      OnThreadBlockKeeps(m, ext[t := ext[t] + 1], t);
      hide Base, OnThreadBlock, Sum, Column, Block, Without, Index;
    } else {
      hide Sum, Column;
    }
  }

  // ---- yielding

  /** The loop of schedule_impl over what thread t blocks: each has waited for t once more. */
  function Credit(s: Sched, t: nat, i: nat): (r: Sched)
    requires Shaped(s) && t < |s.count| && i <= |s.count|
    ensures Shaped(r) && |r.count| == |s.count|
    decreases |s.count| - i
  {
    if i == |s.count| then s else Credit(CreditOne(s, t, i), t, i + 1)
  }

  function CreditOne(s: Sched, t: nat, i: nat): (r: Sched)
    requires Shaped(s) && t < |s.count| && i < |s.count|
    ensures Shaped(r) && |r.count| == |s.count|
  {
    var m := CreditPrio(s, t, i);
    PutSince(m, t, i, m.since[t][i] + 1)
  }

  /** The loop of yield_priority from thread i on: t waits for each thread not scheduled `rounds` times since t
      last yielded. */
  function YieldFrom(s: Sched, t: nat, rounds: nat, i: nat): (r: Sched)
    requires Shaped(s) && t < |s.count| && i <= |s.count|
    ensures Shaped(r) && |r.count| == |s.count|
    decreases |s.count| - i
  {
    if i == |s.count| then s else YieldFrom(YieldOne(s, t, rounds, i), t, rounds, i + 1)
  }

  function YieldOne(s: Sched, t: nat, rounds: nat, i: nat): (r: Sched)
    requires Shaped(s) && t < |s.count| && i < |s.count|
    ensures Shaped(r) && |r.count| == |s.count|
  {
    if s.prio[i][t] != 0 then Fault(s) else PutSince(YieldBlock(s, t, rounds, i), i, t, 0)
  }

  function YieldBlock(s: Sched, t: nat, rounds: nat, i: nat): (r: Sched)
    requires Shaped(s) && t < |s.count| && i < |s.count|
    ensures Shaped(r) && |r.count| == |s.count|
  {
    if t != i && s.since[i][t] < rounds && s.state[i] != Finished then
      Block(PutPrio(s, i, t, rounds, s.total[i] + rounds), t)
    else s
  }

  function YieldPriority(s: Sched, t: nat, rounds: nat): (r: Sched)
    requires Shaped(s) && t < |s.count|
    ensures Shaped(r) && |r.count| == |s.count|
  {
    var m := YieldFrom(s, t, rounds, 0);
    if m.running == [] then PurgeAll(m, 0) else m
  }

  /** r is s with the accounts kept, and the same timed, spurious, dynamic and finished threads. */
  ghost predicate Kept(s: Sched, ext: seq<int>, r: Sched) {
    Base(r, ext) && SameLists(s, r)
  }

  lemma KeptTwice(s: Sched, ext: seq<int>, m: Sched, ext': seq<int>, r: Sched)
    requires Kept(s, ext, m) && Kept(m, ext', r)
    ensures Kept(s, ext', r)
  {
  }

  lemma PutSinceKeeps(s: Sched, ext: seq<int>, y: nat, t: nat, k: nat)
    requires Base(s, ext) && y < |s.count| && t < |s.count|
    ensures Kept(s, ext, PutSince(s, y, t, k))
  {
    hide Sum, Column;
  }

  lemma ShapeOf(s: Sched, ext: seq<int>)
    requires Base(s, ext)
    ensures Shaped(s) && |ext| == |s.count|
  {
  }

  /** Who blocks somebody, or is blocked by somebody, has not finished. */
  lemma PrioMeans(s: Sched, ext: seq<int>, y: nat, t: nat)
    requires Base(s, ext) && y < |s.count| && t < |s.count| && s.prio[y][t] > 0
    ensures y != t && s.state[y] != Finished && s.state[t] != Finished && s.prio[y][t] <= s.total[y]
  {
    ColumnHas(s.prio, y, t);
    SumHas(s.prio[y], t);
    hide Sum, Column;
  }

  /** Blocked for the last time: thread i is let go. */
  lemma CreditLast(s: Sched, ext: seq<int>, t: nat, i: nat)
    requires Base(s, ext) && NonNegative(ext) && t < |s.count| && i < |s.count| && s.prio[t][i] == 1
    ensures s.total[t] > 0 && Kept(s, ext, Unblock(PutPrio(s, t, i, 0, s.total[t] - 1), i))
  {
    ShapeOf(s, ext);
    hide Base;
    PrioMeans(s, ext, t, i);
    PrioStep(s, ext, t, i, 0);
    var p, more := PutPrio(s, t, i, 0, s.total[t] - 1), ext[i := ext[i] + 1];
    assert more[i := more[i] - 1] == ext;
    UnblockStep(p, more, i);
    BlockedCount(p, more, i);
  }

  lemma CreditSome(s: Sched, ext: seq<int>, t: nat, i: nat)
    requires Base(s, ext) && t < |s.count| && i < |s.count| && s.prio[t][i] > 1
    ensures s.total[t] > 0 && Kept(s, ext, PutPrio(s, t, i, s.prio[t][i] - 1, s.total[t] - 1))
  {
    ShapeOf(s, ext);
    hide Base;
    PrioMeans(s, ext, t, i);
    PrioStep(s, ext, t, i, s.prio[t][i] - 1);
    assert s.total[t] - s.prio[t][i] + (s.prio[t][i] - 1) == s.total[t] - 1;
    assert ext[i := ext[i]] == ext;
  }

  /** The priority part of one round of the loop. */
  function CreditPrio(s: Sched, t: nat, i: nat): (r: Sched)
    requires Shaped(s) && t < |s.count| && i < |s.count|
    ensures Shaped(r) && |r.count| == |s.count|
  {
    if s.prio[t][i] == 0 then s
    else
      var p := PutPrio(s, t, i, s.prio[t][i] - 1, if s.total[t] > 0 then s.total[t] - 1 else 0);
      if s.prio[t][i] == 1 then Unblock(p, i) else p
  }

  lemma CreditPrioKeeps(s: Sched, ext: seq<int>, t: nat, i: nat)
    requires Base(s, ext) && NonNegative(ext) && t < |s.count| && i < |s.count|
    ensures Shaped(s) && Kept(s, ext, CreditPrio(s, t, i))
  {
    ShapeOf(s, ext);
    if s.prio[t][i] == 0 {
      KeptSelf(s, ext, t, i);
      hide *;
    } else if s.prio[t][i] == 1 {
      CreditLast(s, ext, t, i);
      assert CreditPrio(s, t, i) == Unblock(PutPrio(s, t, i, 0, s.total[t] - 1), i);
      hide *;
    } else {
      CreditSome(s, ext, t, i);
      hide *;
    }
  }

  lemma CreditOneKeeps(s: Sched, ext: seq<int>, t: nat, i: nat)
    requires Base(s, ext) && NonNegative(ext) && t < |s.count| && i < |s.count|
    ensures Shaped(s) && Kept(s, ext, CreditOne(s, t, i))
  {
    CreditPrioKeeps(s, ext, t, i);
    var m := CreditPrio(s, t, i);
    hide Base, CreditPrio, PutSince;
    PutSinceKeeps(m, ext, t, i, m.since[t][i] + 1);
    KeptTwice(s, ext, m, ext, CreditOne(s, t, i));
  }

  lemma {:induction false} CreditKeeps(s: Sched, ext: seq<int>, t: nat, i: nat)
    requires Base(s, ext) && NonNegative(ext) && t < |s.count| && i <= |s.count|
    ensures Shaped(s) && Kept(s, ext, Credit(s, t, i))
    decreases |s.count| - i
  {
    ShapeOf(s, ext);
    hide Base, CreditOne, Shaped;
    if i < |s.count| {
      CreditOneKeeps(s, ext, t, i);
      var m := CreditOne(s, t, i);
      CreditKeeps(m, ext, t, i + 1);
      KeptTwice(s, ext, m, ext, Credit(m, t, i + 1));
    }
  }

  predicate ColumnZero(s: Sched, t: nat, i: nat) {
    forall j :: i <= j < |s.prio| && t < |s.prio[j]| ==> s.prio[j][t] == 0
  }

  /** Only the rows of threads t and i differ. */
  predicate OtherRows(s: Sched, r: Sched, t: nat, i: nat) {
    |r.prio| == |s.prio| && forall j :: 0 <= j < |s.prio| && j != t && j != i ==> r.prio[j] == s.prio[j]
  }

  lemma YieldBlocks(s: Sched, ext: seq<int>, t: nat, rounds: nat, i: nat)
    requires Base(s, ext) && NonNegative(ext) && t < |s.count| && i < |s.count| && rounds > 0
    requires s.state[t] != Finished && s.state[i] != Finished && t != i && s.prio[i][t] == 0
    ensures var r := Block(PutPrio(s, i, t, rounds, s.total[i] + rounds), t);
            YieldedBy(s, ext, t, i, r)
  {
    ShapeOf(s, ext);
    hide Base, Kept, OtherRows;
    PrioStep(s, ext, i, t, rounds);
    var p := PutPrio(s, i, t, rounds, s.total[i] + rounds);
    var less := ext[t := ext[t] - 1];
    assert less[t := less[t] + 1] == ext;
    hide Shaped, PutPrio, Counts, Lists, Rows;
    BlockKeeps(p, less, t);
    YieldedIntro(s, ext, p, t, i, Block(p, t));
    hide *;
  }

  lemma YieldedIntro(s: Sched, ext: seq<int>, p: Sched, t: nat, i: nat, r: Sched)
    requires Base(r, ext) && SameLists(s, p) && SameLists(p, r) && |p.prio| == |s.prio| == |r.prio|
    requires forall j :: 0 <= j < |s.prio| && j != i ==> p.prio[j] == s.prio[j]
    requires r.prio == p.prio || forall j :: 0 <= j < |s.prio| && j != t ==> r.prio[j] == p.prio[j]
    ensures YieldedBy(s, ext, t, i, r)
  {
  }

  lemma DiagonalZero(s: Sched, ext: seq<int>, t: nat)
    requires Base(s, ext) && t < |s.count|
    ensures s.prio[t][t] == 0
  {
  }

  ghost predicate YieldedBy(s: Sched, ext: seq<int>, t: nat, i: nat, r: Sched) {
    Kept(s, ext, r) && OtherRows(s, r, t, i)
  }

  lemma YieldNot(s: Sched, ext: seq<int>, t: nat, i: nat)
    requires Base(s, ext)
    ensures YieldedBy(s, ext, t, i, s)
  {
    KeptSelf(s, ext, t, i);
  }

  lemma YieldBlockKeeps(s: Sched, ext: seq<int>, t: nat, rounds: nat, i: nat)
    requires Base(s, ext) && NonNegative(ext) && t < |s.count| && i < |s.count| && rounds > 0
    requires Shaped(s) && s.state[t] != Finished && s.prio[i][t] == 0
    ensures YieldedBy(s, ext, t, i, YieldBlock(s, t, rounds, i))
  {
    hide Base, NonNegative, Block, PutPrio, YieldedBy;
    if t != i && s.since[i][t] < rounds && s.state[i] != Finished {
      YieldBlocks(s, ext, t, rounds, i);
    } else {
      YieldNot(s, ext, t, i);
    }
  }

  lemma KeptSelf(s: Sched, ext: seq<int>, t: nat, i: nat)
    requires Base(s, ext)
    ensures Kept(s, ext, s) && OtherRows(s, s, t, i)
  {
    hide Base;
  }

  lemma ColumnZeroLater(s: Sched, m: Sched, t: nat, i: nat)
    requires Shaped(s) && Shaped(m) && |m.count| == |s.count| && t < |s.count| && i < |s.count| && ColumnZero(s, t, i)
             && m.prio[t][t] == 0
    requires OtherRows(s, m, t, i)
    ensures ColumnZero(PutSince(m, i, t, 0), t, i + 1)
  {
  }

  lemma YieldOneKeeps(s: Sched, ext: seq<int>, t: nat, rounds: nat, i: nat)
    requires Base(s, ext) && NonNegative(ext) && t < |s.count| && i < |s.count| && rounds > 0
    requires s.state[t] != Finished && ColumnZero(s, t, i)
    ensures Shaped(s) && Kept(s, ext, YieldOne(s, t, rounds, i)) && ColumnZero(YieldOne(s, t, rounds, i), t, i + 1)
  {
    ShapeOf(s, ext);
    assert s.prio[i][t] == 0;
    var m := YieldBlock(s, t, rounds, i);
    hide Base, YieldBlock, ColumnZero, Shaped, PutSince, OtherRows;
    YieldBlockKeeps(s, ext, t, rounds, i);
    DiagonalZero(m, ext, t);
    ColumnZeroLater(s, m, t, i);
    PutSinceKeeps(m, ext, i, t, 0);
    KeptTwice(s, ext, m, ext, PutSince(m, i, t, 0));
  }

  lemma {:induction false} YieldFromKeeps(s: Sched, ext: seq<int>, t: nat, rounds: nat, i: nat)
    requires Base(s, ext) && NonNegative(ext) && t < |s.count| && i <= |s.count| && rounds > 0
    requires s.state[t] != Finished && ColumnZero(s, t, i)
    ensures Shaped(s) && Kept(s, ext, YieldFrom(s, t, rounds, i))
    decreases |s.count| - i
  {
    ShapeOf(s, ext);
    hide Base, YieldOne, Shaped, ColumnZero;
    if i < |s.count| {
      YieldOneKeeps(s, ext, t, rounds, i);
      var m := YieldOne(s, t, rounds, i);
      YieldFromKeeps(m, ext, t, rounds, i + 1);
      KeptTwice(s, ext, m, ext, YieldFrom(m, t, rounds, i + 1));
    }
  }

  lemma YieldPriorityKeeps(s: Sched, ext: seq<int>, t: nat, rounds: nat)
    requires Base(s, ext) && NonNegative(ext) && t < |s.count| && rounds > 0
    requires s.state[t] != Finished && ColumnZero(s, t, 0)
    ensures Shaped(s) && Kept(s, ext, YieldPriority(s, t, rounds))
  {
    ShapeOf(s, ext);
    hide Base, YieldFrom, PurgeAll, ColumnZero, Shaped;
    YieldFromKeeps(s, ext, t, rounds, 0);
    PurgeAllKeeps(YieldFrom(s, t, rounds, 0), ext, 0);
  }

  // ---- parking, finishing, scheduling

  function Drop(s: seq<nat>, t: nat): (r: seq<nat>)
  {
    if t in s then Without(s, Index(s, t)) else s
  }

  /** unpark_thread */
  function Unpark(s: Sched, t: nat): (r: Sched)
    requires Shaped(s) && t < |s.count|
    ensures Shaped(r) && |r.count| == |s.count|
  {
    Unblock(s, t).(spurious := Drop(s.spurious, t), timed := Drop(s.timed, t))
  }

  /** Nobody runs and nobody waits for a timeout. */
  predicate Stuck(s: Sched) {
    s.running == [] && s.timed == []
  }

  /** is_deadlock purges the yield blocks before it gives up. */
  function TryPurge(s: Sched): (r: Sched)
    requires Shaped(s)
    ensures Shaped(r) && |r.count| == |s.count|
  {
    if Stuck(s) then PurgeAll(s, 0) else s
  }

  function ParkLists(s: Sched, t: nat, timed: bool, spurious: bool): (r: Sched)
    requires Shaped(s)
    ensures Shaped(r) && |r.count| == |s.count|
  {
    s.(timed := if timed then s.timed + [t] else s.timed, spurious := if spurious then s.spurious + [t] else s.spurious)
  }

  /** create_thread, and one round of the loop that starts all dynamic threads. */
  function StartDynamic(s: Sched): (r: Sched)
    requires Shaped(s)
    ensures Shaped(r) && |r.count| == |s.count|
  {
    var n := |s.dynamic| - 1;
    if n < 0 || s.dynamic[n] >= |s.count| then Fault(s) else Unblock(s.(dynamic := s.dynamic[..n]), s.dynamic[n])
  }

  function StartAllDynamic(s: Sched): (r: Sched)
    requires Shaped(s)
    ensures Shaped(r) && |r.count| == |s.count|
    decreases |s.dynamic|
  {
    if s.dynamic == [] || s.dynamic[|s.dynamic| - 1] >= |s.count| then s
    else StartDynamicLess(s); StartAllDynamic(StartDynamic(s))
  }

  lemma StartDynamicLess(s: Sched)
    requires Shaped(s) && s.dynamic != [] && s.dynamic[|s.dynamic| - 1] < |s.count|
    ensures |StartDynamic(s).dynamic| < |s.dynamic|
  {
  }

  datatype Result = Normal | Last | Deadlock

  /** thread_finished after the thread has been marked: the retry loop. */
  function Settle(s: Sched): (r: (Sched, Result))
    requires Shaped(s)
    ensures Shaped(r.0) && |r.0.count| == |s.count|
  {
    if s.finished == |s.count| then (s, Last)
    else
      var m := TryPurge(s);
      if !Stuck(s) || !Stuck(m) then (m, Normal)
      else if m.dynamic == [] then (m, Deadlock)
      else
        var d := StartAllDynamic(m);
        if d.finished == |d.count| then (d, Last)
        else
          var e := TryPurge(d);
          (e, if Stuck(d) && Stuck(e) then Deadlock else Normal)
  }

  function MarkFinished(s: Sched, t: nat): (r: Sched)
    requires Shaped(s) && t < |s.count|
    ensures Shaped(r) && |r.count| == |s.count|
  {
    var m := Block(s, t);
    m.(state := m.state[t := Finished], finished := m.finished + 1)
  }

  /** schedule_impl up to the choice of the next thread. */
  function Account(s: Sched, t: nat, rounds: nat): (r: Sched)
    requires Shaped(s) && t < |s.count|
    ensures Shaped(r) && |r.count| == |s.count|
  {
    var m := if s.total[t] != 0 then Credit(s, t, 0) else s;
    if rounds != 0 then YieldPriority(m, t, rounds) else m
  }

  /** The random answers of schedule_impl: a timed waiter, a spurious wakeup, a running thread. */
  datatype Picks = Picks(timed: nat, spurious: nat, running: nat)

  datatype Choice = Chosen(s: Sched, t: nat, woken: bool) | NoThread(s: Sched)

  /** May waiter t of the list be woken now? Not while somebody's yield still blocks it. */
  predicate Wakes(s: Sched, list: seq<nat>, pick: nat)
  {
    pick < |list| && list[pick] < |s.count| && s.count[list[pick]] == 1
  }

  function Select(s: Sched, p: Picks): (r: Choice)
    requires Shaped(s)
    ensures Shaped(r.s) && |r.s.count| == |s.count|
  {
    if Wakes(s, s.timed, p.timed) then Chosen(Unpark(s, s.timed[p.timed]), s.timed[p.timed], true)
    else if s.running == [] then NoThread(s)
    else if Wakes(s, s.spurious, p.spurious)
      then Chosen(Unpark(s, s.spurious[p.spurious]), s.spurious[p.spurious], true)
    else Chosen(s, s.running[if p.running < |s.running| then p.running else 0], false)
  }

  // ---- the accounts

  function Bit(b: bool): int {
    if b then 1 else 0
  }

  /** Why a thread is blocked, yields apart. */
  function Ext(s: Sched, parked: set<nat>): (e: seq<int>)
    ensures |e| == |s.state|
  {
    seq(|s.state|, t requires 0 <= t < |s.state| =>
      Bit(t in parked) + Bit(t in s.dynamic) + Bit(s.state[t] == Finished))
  }

  function FinishedCount(state: seq<ThreadState>): nat {
    if state == [] then 0 else FinishedCount(state[..|state| - 1]) + if state[|state| - 1] == Finished then 1 else 0
  }

  /** The accounting invariant: for every thread, block_count_ is 1 if it is parked, plus 1 if it is a dynamic
      thread not yet started, plus the number of threads that block it by a yield (a finished thread counts 1);
      every total is its row sum; running_threads is the duplicate-free set of the unfinished threads with count 0.
      */
  ghost predicate Accounts(s: Sched, parked: set<nat>) {
    Base(s, Ext(s, parked)) && Roster(s, parked) && s.finished == FinishedCount(s.state)
  }

  /** The lists of waiters hold parked threads; parked threads and threads not yet started are unfinished, and
      different. */
  ghost predicate Roster(s: Sched, parked: set<nat>) {
    && Distinct(s.timed) && Distinct(s.spurious) && Distinct(s.dynamic)
    && (forall t :: t in s.timed || t in s.spurious ==> t in parked)
    && (forall t: nat :: t in parked || t in s.dynamic ==> t < |s.state| && s.state[t] != Finished)
    && (forall t :: t in s.dynamic ==> t !in parked)
  }

  lemma ExtPositive(s: Sched, parked: set<nat>)
    ensures NonNegative(Ext(s, parked))
  {
  }

  lemma {:induction false} FinishedSame(a: seq<ThreadState>, b: seq<ThreadState>)
    requires |a| == |b| && forall t :: 0 <= t < |a| ==> (a[t] == Finished <==> b[t] == Finished)
    ensures FinishedCount(a) == FinishedCount(b)
  {
    if a != [] {
      FinishedSame(a[..|a| - 1], b[..|b| - 1]);
    }
  }

  /** Purging, crediting and yielding touch none of the lists the accounts speak of. */
  lemma AccountsKept(s: Sched, parked: set<nat>, r: Sched)
    requires Accounts(s, parked) && Kept(s, Ext(s, parked), r)
    ensures Accounts(r, parked)
  {
    hide Base, FinishedCount, Distinct, Shaped;
    ShapeOf(s, Ext(s, parked));
    ExtSame(s, parked, r);
    assert |r.state| == |s.state|;
    FinishedSame(s.state, r.state);
  }

  lemma ExtSame(s: Sched, parked: set<nat>, r: Sched)
    requires SameLists(s, r)
    ensures Ext(r, parked) == Ext(s, parked)
  {
  }

  lemma ExtWithout(s: Sched, parked: set<nat>, r: Sched, t: nat)
    requires t in parked && t < |s.state| == |r.state| && r.dynamic == s.dynamic
    requires forall u :: 0 <= u < |s.state| ==> (r.state[u] == Finished <==> s.state[u] == Finished)
    ensures Ext(r, parked - {t}) == Ext(s, parked)[t := Ext(s, parked)[t] - 1]
  {
    var a, b := Ext(r, parked - {t}), Ext(s, parked)[t := Ext(s, parked)[t] - 1];
    assert forall u :: 0 <= u < |a| && u != t ==> a[u] == b[u];
    hide Ext;
  }

  lemma RosterWithout(s: Sched, parked: set<nat>, r: Sched, t: nat)
    requires Roster(s, parked) && |s.state| == |r.state| && r.dynamic == s.dynamic
    requires r.timed == Drop(s.timed, t) && r.spurious == Drop(s.spurious, t)
    requires forall u :: 0 <= u < |s.state| ==> (r.state[u] == Finished <==> s.state[u] == Finished)
    ensures Roster(r, parked - {t})
  {
  }

  lemma UnparkKeeps(s: Sched, parked: set<nat>, t: nat)
    requires Accounts(s, parked) && t in parked
    ensures t < |s.count| && Shaped(s) && Accounts(Unpark(s, t), parked - {t}) && s.count[t] >= 1
  {
    var ext := Ext(s, parked);
    BaseOf(s, parked);
    ShapeOf(s, ext);
    ParkedMeans(s, parked, t);
    hide Base, FinishedCount, Roster, Ext, Shaped, Distinct, Unblock, Unpark, Drop;
    BlockedCount(s, ext, t);
    UnblockStep(s, ext, t);
    UnparkIs(s, t);
    var m, r := Unblock(s, t), Unpark(s, t);
    FinishedSame(s.state, m.state);
    ListsSame(m, ext[t := ext[t] - 1], r);
    ExtWithout(s, parked, r, t);
    RosterWithout(s, parked, r, t);
  }

  lemma UnparkIs(s: Sched, t: nat)
    requires Shaped(s) && t < |s.count| && s.state[t] != Finished
    ensures var m, r := Unblock(s, t), Unpark(s, t);
            && r == m.(spurious := Drop(s.spurious, t), timed := Drop(s.timed, t))
            && |m.state| == |s.state| && m.dynamic == s.dynamic && m.finished == s.finished
            && forall u :: 0 <= u < |s.state| ==> (m.state[u] == Finished <==> s.state[u] == Finished)
  {
    hide Drop;
  }

  lemma ParkedMeans(s: Sched, parked: set<nat>, t: nat)
    requires Accounts(s, parked) && t in parked
    ensures t < |s.state| == |s.count| && s.state[t] != Finished && Ext(s, parked)[t] >= 1
  {
    hide Counts, Lists, Rows, Distinct;
  }

  lemma ListsSame(s: Sched, ext: seq<int>, r: Sched)
    requires Base(s, ext) && r == s.(timed := r.timed, spurious := r.spurious, dynamic := r.dynamic,
             finished := r.finished)
    ensures Base(r, ext)
  {
    hide Sum, Column;
  }

  lemma ExtWith(s: Sched, parked: set<nat>, r: Sched, t: nat)
    requires t !in parked && t < |s.state| == |r.state| && r.dynamic == s.dynamic
    requires forall u :: 0 <= u < |s.state| ==> (r.state[u] == Finished <==> s.state[u] == Finished)
    ensures Ext(r, parked + {t}) == Ext(s, parked)[t := Ext(s, parked)[t] + 1]
  {
    var (a, b) := (Ext(r, parked + {t}), Ext(s, parked)[t := Ext(s, parked)[t] + 1]);
    assert forall u :: 0 <= u < |a| && u != t ==> a[u] == b[u];
    hide Ext;
  }

  lemma RosterWith(s: Sched, parked: set<nat>, r: Sched, t: nat, timed: bool, spurious: bool)
    requires Roster(s, parked) && |s.state| == |r.state| && r.dynamic == s.dynamic && t !in parked && t !in s.dynamic
    requires t < |s.state| && s.state[t] != Finished && t !in s.timed && t !in s.spurious
    requires r.timed == if timed then s.timed + [t] else s.timed
    requires r.spurious == if spurious then s.spurious + [t] else s.spurious
    requires forall u :: 0 <= u < |s.state| ==> (r.state[u] == Finished <==> s.state[u] == Finished)
    ensures Roster(r, parked + {t})
  {
  }

  lemma ParkKeeps(s: Sched, parked: set<nat>, t: nat, timed: bool, spurious: bool)
    requires Accounts(s, parked) && t < |s.count| && s.state[t] == Running
    ensures Shaped(s)
    ensures var r := Block(ParkLists(s, t, timed, spurious), t);
            Accounts(r, parked + {t}) && r.total[t] == 0 && r.state[t] == Blocked
  {
    var ext := Ext(s, parked);
    ShapeOf(s, ext);
    RunningIsFree(s, parked, t);
    ExtPositive(s, parked);
    hide Base, FinishedCount, Roster, Ext, Block;
    var m := ParkLists(s, t, timed, spurious);
    ListsSame(s, ext, m);
    BlockKeeps(m, ext, t);
    var r := Block(m, t);
    FinishedSame(s.state, r.state);
    ExtWith(s, parked, r, t);
    RosterWith(s, parked, r, t, timed, spurious);
  }

  /** A running thread is neither parked nor waiting to be started. */
  lemma RunningIsFree(s: Sched, parked: set<nat>, t: nat)
    requires Accounts(s, parked) && t < |s.count| && s.state[t] == Running
    ensures t !in parked && t !in s.dynamic && t !in s.timed && t !in s.spurious && s.count[t] == 0
            && Ext(s, parked)[t] == 0
    ensures t in s.running
  {
    hide Sum, Column;
  }

  lemma TryPurgeKeeps(s: Sched, parked: set<nat>)
    requires Accounts(s, parked)
    ensures Shaped(s) && Accounts(TryPurge(s), parked) && SameLists(s, TryPurge(s))
  {
    ShapeOf(s, Ext(s, parked));
    ExtPositive(s, parked);
    hide Base, PurgeAll;
    if Stuck(s) {
      PurgeAllKeeps(s, Ext(s, parked), 0);
      AccountsKept(s, parked, PurgeAll(s, 0));
    }
  }

  lemma ExtStarted(s: Sched, parked: set<nat>, r: Sched, t: nat)
    requires |s.state| == |r.state| && t < |s.state| && Distinct(s.dynamic) && s.dynamic == r.dynamic + [t]
    requires forall u :: 0 <= u < |s.state| ==> (r.state[u] == Finished <==> s.state[u] == Finished)
    ensures Ext(r, parked) == Ext(s, parked)[t := Ext(s, parked)[t] - 1]
  {
    assert s.dynamic[|r.dynamic|] == t;
    assert forall i :: 0 <= i < |r.dynamic| ==> r.dynamic[i] == s.dynamic[i] && s.dynamic[i] != s.dynamic[|r.dynamic|];
    hide Distinct;
    var (a, b) := (Ext(r, parked), Ext(s, parked)[t := Ext(s, parked)[t] - 1]);
    assert forall u :: 0 <= u < |a| && u != t ==> a[u] == b[u];
    hide Ext;
  }

  lemma RosterStarted(s: Sched, parked: set<nat>, r: Sched, t: nat)
    requires Roster(s, parked) && |s.state| == |r.state| && s.dynamic == r.dynamic + [t]
    requires r.timed == s.timed && r.spurious == s.spurious
    requires forall u :: 0 <= u < |s.state| ==> (r.state[u] == Finished <==> s.state[u] == Finished)
    ensures Roster(r, parked)
  {
    assert forall i :: 0 <= i < |r.dynamic| ==> r.dynamic[i] == s.dynamic[i];
    assert forall u :: u in r.dynamic ==> u in s.dynamic;
  }

  lemma LastDynamic(s: Sched, parked: set<nat>)
    requires Accounts(s, parked) && s.dynamic != []
    ensures var t := s.dynamic[|s.dynamic| - 1];
            Shaped(s) && t < |s.count| && s.state[t] != Finished && Ext(s, parked)[t] >= 1 && Distinct(s.dynamic)
  {
    hide Counts, Lists, Rows, Distinct;
    assert s.dynamic[|s.dynamic| - 1] in s.dynamic;
  }

  lemma StartedAccounts(s: Sched, parked: set<nat>, r: Sched, t: nat)
    requires Accounts(s, parked) && |s.state| == |r.state| && t < |s.state|
    requires Base(r, Ext(s, parked)[t := Ext(s, parked)[t] - 1])
    requires s.dynamic == r.dynamic + [t] && r.timed == s.timed && r.spurious == s.spurious && r.finished == s.finished
    requires forall u :: 0 <= u < |s.state| ==> (r.state[u] == Finished <==> s.state[u] == Finished)
    ensures Accounts(r, parked)
  {
    assert Distinct(s.dynamic);
    hide Base, FinishedCount, Roster, Ext, Distinct;
    FinishedSame(s.state, r.state);
    ExtStarted(s, parked, r, t);
    RosterStarted(s, parked, r, t);
  }

  lemma StartDynamicIs(s: Sched)
    requires Shaped(s) && s.dynamic != [] && s.dynamic[|s.dynamic| - 1] < |s.count|
    ensures var n, r := |s.dynamic| - 1, StartDynamic(s);
            && r == Unblock(s.(dynamic := s.dynamic[..n]), s.dynamic[n])
            && s.dynamic == r.dynamic + [s.dynamic[n]] && r.timed == s.timed && r.spurious == s.spurious
            && r.finished == s.finished
            && |s.state| == |r.state| && forall u :: 0 <= u < |s.state| ==>
              (r.state[u] == Finished <==> s.state[u] == Finished)
  {
  }

  lemma StartDynamicBase(s: Sched, ext: seq<int>)
    requires Base(s, ext) && s.dynamic != []
    requires var t := s.dynamic[|s.dynamic| - 1]; t < |s.count| && s.state[t] != Finished && ext[t] >= 1
    ensures Shaped(s) && Base(StartDynamic(s), ext[s.dynamic[|s.dynamic| - 1] := ext[s.dynamic[|s.dynamic| - 1]] - 1])
  {
    ShapeOf(s, ext);
    StartDynamicIs(s);
    var m := s.(dynamic := s.dynamic[..|s.dynamic| - 1]);
    ListsSame(s, ext, m);
    hide Base, StartDynamic, Unblock;
    UnblockStep(m, ext, s.dynamic[|s.dynamic| - 1]);
  }

  lemma StartDynamicKeeps(s: Sched, parked: set<nat>)
    requires Accounts(s, parked) && s.dynamic != []
    ensures Shaped(s) && s.dynamic[|s.dynamic| - 1] < |s.count| && Accounts(StartDynamic(s), parked)
  {
    LastDynamic(s, parked);
    BaseOf(s, parked);
    hide *;
    StartDynamicBase(s, Ext(s, parked));
    StartDynamicIs(s);
    StartedAccounts(s, parked, StartDynamic(s), s.dynamic[|s.dynamic| - 1]);
  }

  lemma BaseOf(s: Sched, parked: set<nat>)
    requires Accounts(s, parked)
    ensures Base(s, Ext(s, parked))
  {
  }

  lemma {:induction false} StartAllKeeps(s: Sched, parked: set<nat>)
    requires Accounts(s, parked)
    ensures Shaped(s) && Accounts(StartAllDynamic(s), parked)
    decreases |s.dynamic|
  {
    ShapeOf(s, Ext(s, parked));
    hide Accounts, Base, StartDynamic;
    if s.dynamic != [] {
      StartDynamicKeeps(s, parked);
      StartAllKeeps(StartDynamic(s), parked);
    }
  }

  lemma {:induction false} FinishedPut(a: seq<ThreadState>, t: nat)
    requires t < |a| && a[t] != Finished
    ensures FinishedCount(a[t := Finished]) == FinishedCount(a) + 1
  {
    var n := |a| - 1;
    if t < n {
      FinishedPut(a[..n], t);
      assert a[t := Finished][..n] == a[..n][t := Finished];
    } else {
      assert a[t := Finished][..n] == a[..n];
    }
  }

  lemma Finishes(s: Sched, ext: seq<int>, t: nat)
    requires Base(s, ext) && t < |s.count| && s.state[t] == Blocked && s.total[t] == 0 && s.count[t] == ext[t]
    ensures Base(s.(state := s.state[t := Finished]), ext)
  {
    hide Sum, Column;
  }

  lemma ExtFinished(s: Sched, parked: set<nat>, r: Sched, t: nat)
    requires |s.state| == |r.state| && t < |s.state| && r.dynamic == s.dynamic && s.state[t] != Finished
    requires forall u :: 0 <= u < |s.state| ==> (r.state[u] == Finished <==> u == t || s.state[u] == Finished)
    ensures Ext(r, parked) == Ext(s, parked)[t := Ext(s, parked)[t] + 1]
  {
  }

  lemma RosterFinished(s: Sched, parked: set<nat>, r: Sched, t: nat)
    requires Roster(s, parked) && |s.state| == |r.state| && t !in parked && t !in s.dynamic
    requires r.timed == s.timed && r.spurious == s.spurious && r.dynamic == s.dynamic
    requires forall u :: 0 <= u < |s.state| ==> (r.state[u] == Finished <==> u == t || s.state[u] == Finished)
    ensures Roster(r, parked)
  {
  }

  lemma MarkFinishedKeeps(s: Sched, parked: set<nat>, t: nat)
    requires Accounts(s, parked) && t < |s.count| && s.state[t] == Running
    ensures Shaped(s) && Accounts(MarkFinished(s, t), parked) && MarkFinished(s, t).total[t] == 0
            && MarkFinished(s, t).state[t] == Finished
  {
    hide Base, FinishedCount, Roster, Ext, Block;
    var ext := Ext(s, parked);
    ShapeOf(s, ext);
    ExtPositive(s, parked);
    RunningIsFree(s, parked, t);
    BlockKeeps(s, ext, t);
    BlockCounts(s, ext, t);
    var m := Block(s, t);
    Finishes(m, ext[t := ext[t] + 1], t);
    var r := m.(state := m.state[t := Finished]);
    FinishedSame(s.state, m.state);
    FinishedPut(m.state, t);
    ListsSame(r, ext[t := ext[t] + 1], MarkFinished(s, t));
    ExtFinished(s, parked, MarkFinished(s, t), t);
    RosterFinished(s, parked, MarkFinished(s, t), t);
  }

  /** A running thread that is blocked once has that one reason. */
  lemma BlockCounts(s: Sched, ext: seq<int>, t: nat)
    requires Base(s, ext) && t < |s.count| && s.state[t] == Running && ext[t] == 0 && NonNegative(ext)
    ensures Block(s, t).count[t] == 1
  {
    Stops(s, ext, t);
    var m := s.(count := s.count[t := s.count[t] + 1], running := Without(s.running, Index(s.running, t)),
      state := s.state[t := Blocked]);
    OnThreadBlockKeeps(m, ext[t := ext[t] + 1], t);
    hide OnThreadBlock, Sum, Column;
  }

  lemma SettleKeeps(s: Sched, parked: set<nat>)
    requires Accounts(s, parked)
    ensures Shaped(s) && Accounts(Settle(s).0, parked)
  {
    hide Accounts, TryPurge, StartAllDynamic, Shaped, SameLists;
    TryPurgeKeeps(s, parked);
    var m := TryPurge(s);
    StartAllKeeps(m, parked);
    TryPurgeKeeps(StartAllDynamic(m), parked);
  }

  // ---- the next thread

  lemma {:induction false} CreditCount(s: Sched, t: nat, i: nat)
    requires Shaped(s) && t < |s.count| && i <= |s.count| && s.prio[t][t] == 0
    ensures Credit(s, t, i).count[t] == s.count[t] && Credit(s, t, i).state[t] == s.state[t]
    decreases |s.count| - i
  {
    if i < |s.count| {
      CreditCountOne(s, t, i);
      hide CreditOne, Shaped;
      CreditCount(CreditOne(s, t, i), t, i + 1);
    }
  }

  lemma CreditCountOne(s: Sched, t: nat, i: nat)
    requires Shaped(s) && t < |s.count| && i < |s.count| && s.prio[t][t] == 0
    ensures var r := CreditOne(s, t, i); r.count[t] == s.count[t] && r.state[t] == s.state[t] && r.prio[t][t] == 0
  {
  }

  lemma {:induction false} ColumnNone(prio: seq<seq<nat>>, t: nat, j: nat)
    requires Column(prio, t) == 0 && j < |prio| && t < |prio[j]|
    ensures prio[j][t] == 0
  {
    if prio[j][t] > 0 {
      ColumnHas(prio, j, t);
    }
  }

  lemma NoYieldBlocks(s: Sched, ext: seq<int>, t: nat)
    requires Base(s, ext) && t < |s.count| && s.count[t] == ext[t]
    ensures ColumnZero(s, t, 0)
  {
    forall j | 0 <= j < |s.prio| && t < |s.prio[j]|
      ensures s.prio[j][t] == 0
    {
      ColumnNone(s.prio, t, j);
    }
  }

  /** The accounting part of schedule_impl, for a thread that no yield blocks. */
  lemma AccountKeeps(s: Sched, parked: set<nat>, t: nat, rounds: nat)
    requires Accounts(s, parked) && t < |s.count| && s.count[t] == Ext(s, parked)[t]
             && (rounds > 0 ==> s.state[t] != Finished)
    ensures Shaped(s) && Accounts(Account(s, t, rounds), parked)
  {
    var ext := Ext(s, parked);
    ShapeOf(s, ext);
    ExtPositive(s, parked);
    DiagonalZero(s, ext, t);
    hide Base, Credit, YieldPriority, ColumnZero, Shaped;
    var m := if s.total[t] != 0 then Credit(s, t, 0) else s;
    if s.total[t] != 0 {
      CreditCount(s, t, 0);
      CreditKeeps(s, ext, t, 0);
      AccountsKept(s, parked, m);
      KeptExt(s, parked, m);
    }
    if rounds != 0 {
      NoYieldBlocks(m, ext, t);
      YieldPriorityKeeps(m, ext, t, rounds);
      AccountsKept(m, parked, YieldPriority(m, t, rounds));
    }
  }

  lemma KeptExt(s: Sched, parked: set<nat>, r: Sched)
    requires Kept(s, Ext(s, parked), r)
    ensures Ext(r, parked) == Ext(s, parked)
  {
    ExtSame(s, parked, r);
  }

  lemma WaiterWakes(s: Sched, parked: set<nat>, t: nat)
    requires Accounts(s, parked) && t in parked && t < |s.count| && s.count[t] == 1 && Shaped(s)
    ensures Unpark(s, t).state[t] == Running
  {
    hide Sum, Column, FinishedCount, Roster;
  }

  lemma RunningRuns(s: Sched, parked: set<nat>, i: nat)
    requires Accounts(s, parked) && i < |s.running|
    ensures s.running[i] < |s.count| && s.state[s.running[i]] == Running
  {
    assert s.running[i] in s.running;
    hide Sum, Column, FinishedCount, Roster;
  }

  lemma WaiterIsParked(s: Sched, parked: set<nat>, i: nat)
    requires Accounts(s, parked)
    ensures i < |s.timed| ==> s.timed[i] in parked
    ensures i < |s.spurious| ==> s.spurious[i] in parked
  {
    hide Base;
  }

  /** Whoever schedule_impl chooses is running, and the accounts are kept. */
  lemma SelectKeeps(s: Sched, parked: set<nat>, p: Picks)
    requires Accounts(s, parked)
    ensures Shaped(s)
    ensures match Select(s, p)
            case Chosen(r, t, woken) =>
              Accounts(r, if woken then parked - {t} else parked) && t < |r.count| && r.state[t] == Running
            case NoThread(r) => r == s && s.running == []
  {
    BaseOf(s, parked);
    ShapeOf(s, Ext(s, parked));
    hide Accounts, Unpark, Base, Shaped;
    if Wakes(s, s.timed, p.timed) {
      WaiterIsParked(s, parked, p.timed);
      UnparkKeeps(s, parked, s.timed[p.timed]);
      WaiterWakes(s, parked, s.timed[p.timed]);
    } else if s.running == [] {
    } else if Wakes(s, s.spurious, p.spurious) {
      WaiterIsParked(s, parked, p.spurious);
      UnparkKeeps(s, parked, s.spurious[p.spurious]);
      WaiterWakes(s, parked, s.spurious[p.spurious]);
    } else {
      RunningRuns(s, parked, if p.running < |s.running| then p.running else 0);
    }
  }

  lemma {:induction false} ColumnOfZeros(prio: seq<seq<nat>>, t: nat)
    requires forall j :: 0 <= j < |prio| && t < |prio[j]| ==> prio[j][t] == 0
    ensures Column(prio, t) == 0
  {
    if prio != [] {
      ColumnOfZeros(prio[..|prio| - 1], t);
    }
  }

  lemma {:induction false} PurgeAllColumn(s: Sched, ext: seq<int>, i: nat, t: nat)
    requires Base(s, ext) && NonNegative(ext) && i <= |s.count| && t < |s.count| && ColumnZero(s, t, 0)
    ensures Shaped(s) && ColumnZero(PurgeAll(s, i), t, 0)
    decreases |s.count| - i
  {
    ShapeOf(s, ext);
    if i < |s.count| {
      OnThreadBlockKeeps(s, ext, i);
      hide Base, OnThreadBlock, NonNegative;
      PurgeAllColumn(OnThreadBlock(s, i), ext, i + 1, t);
    }
  }

  /** After parking and the purge that may follow, no yield blocks the thread. */
  lemma ParkedCount(s: Sched, parked: set<nat>, t: nat)
    requires Accounts(s, parked) && t < |s.count| && s.count[t] == Ext(s, parked)[t]
    ensures Shaped(s) && TryPurge(s).count[t] == Ext(TryPurge(s), parked)[t]
  {
    var ext := Ext(s, parked);
    BaseOf(s, parked);
    ShapeOf(s, ext);
    ExtPositive(s, parked);
    TryPurgeKeeps(s, parked);
    ExtSame(s, parked, TryPurge(s));
    if Stuck(s) {
      NoYieldBlocks(s, ext, t);
      PurgeAllColumn(s, ext, 0, t);
      ColumnOfZeros(PurgeAll(s, 0).prio, t);
      BaseOf(PurgeAll(s, 0), parked);
      CountIs(PurgeAll(s, 0), ext, t);
    }
  }

  lemma CountIs(s: Sched, ext: seq<int>, t: nat)
    requires Base(s, ext) && t < |s.count|
    ensures |ext| == |s.count| && s.count[t] == ext[t] + Column(s.prio, t)
    ensures s.state[t] == Finished ==> Column(s.prio, t) == 0
  {
  }

  // ---- runs

  /** The scheduler, the parked threads and the current thread. */
  datatype World = World(s: Sched, parked: set<nat>, cur: nat)

  /** What the current thread does: yield or be preempted (0 rounds), park, finish, unpark another thread, start one. */
  datatype Act = Yield(rounds: nat, p: Picks) | Park(timed: bool, spurious: bool, p: Picks) | Finish(p: Picks)
    | Wake(t: nat) | Create

  /** How the act ends: somebody runs, the iteration is over, a deadlock, or nobody was found to run. */
  datatype Outcome = Runs(w: World) | Over(s: Sched, parked: set<nat>) | Deadlocked | Nobody

  function Go(s: Sched, parked: set<nat>, p: Picks): Outcome
    requires Shaped(s)
  {
    match Select(s, p)
    case Chosen(r, t, woken) => Runs(World(r, if woken then parked - {t} else parked, t))
    case NoThread(_) => Nobody
  }

  function AfterFinish(m: Sched, parked: set<nat>, t: nat, p: Picks): Outcome
    requires Shaped(m) && t < |m.count|
  {
    var (q, res) := Settle(m);
    match res
    case Last => Over(q, parked)
    case Deadlock => Deadlocked
    case Normal => Go(Account(q, t, 0), parked, p)
  }

  function Turn(w: World, act: Act): Outcome
    requires Shaped(w.s) && w.cur < |w.s.count|
  {
    match act
    case Yield(rounds, p) => Go(Account(w.s, w.cur, rounds), w.parked, p)
    case Park(timed, spurious, p) =>
      var r := Block(ParkLists(w.s, w.cur, timed, spurious), w.cur);
      var q := TryPurge(r);
      if Stuck(r) && Stuck(q) then Deadlocked else Go(Account(q, w.cur, 1), w.parked + {w.cur}, p)
    case Finish(p) => AfterFinish(MarkFinished(w.s, w.cur), w.parked, w.cur, p)
    case Wake(t) =>
      if t in w.parked && t < |w.s.count| then Runs(w.(s := Unpark(w.s, t), parked := w.parked - {t})) else Runs(w)
    case Create => if w.s.dynamic == [] then Runs(w) else Runs(w.(s := StartDynamic(w.s)))
  }

  ghost predicate Good(w: World) {
    Accounts(w.s, w.parked) && w.cur < |w.s.count| && |w.s.state| == |w.s.count| && w.s.state[w.cur] == Running
  }

  ghost predicate GoodOutcome(o: Outcome) {
    match o
    case Runs(w) => Good(w)
    case Over(s, parked) => Accounts(s, parked) && s.running == []
    case _ => true
  }

  lemma GoKeeps(s: Sched, parked: set<nat>, p: Picks)
    requires Accounts(s, parked)
    ensures Shaped(s) && GoodOutcome(Go(s, parked, p))
  {
    SelectKeeps(s, parked, p);
    hide Accounts, Select;
  }

  lemma YieldTurn(w: World, rounds: nat, p: Picks)
    requires Good(w)
    ensures Shaped(w.s) && GoodOutcome(Go(Account(w.s, w.cur, rounds), w.parked, p))
  {
    RunningIsFree(w.s, w.parked, w.cur);
    hide Accounts, Account, Go, GoodOutcome;
    AccountKeeps(w.s, w.parked, w.cur, rounds);
    GoKeeps(Account(w.s, w.cur, rounds), w.parked, p);
  }

  lemma ParkTurn(w: World, timed: bool, spurious: bool, p: Picks)
    requires Good(w)
    ensures Shaped(w.s) && GoodOutcome(Turn(w, Park(timed, spurious, p)))
  {
    var t, parked := w.cur, w.parked + {w.cur};
    BaseOf(w.s, w.parked);
    ShapeOf(w.s, Ext(w.s, w.parked));
    hide Accounts, Account, Go, Block, TryPurge, Ext, Shaped, ParkLists, GoodOutcome;
    ParkKeeps(w.s, w.parked, t, timed, spurious);
    ParkCounts(w.s, w.parked, t, timed, spurious);
    ParkGoes(Block(ParkLists(w.s, t, timed, spurious), t), parked, t, p);
    DeadlockIsGood();
  }

  lemma DeadlockIsGood()
    ensures GoodOutcome(Deadlocked)
  {
  }

  lemma ParkGoes(r: Sched, parked: set<nat>, t: nat, p: Picks)
    requires Accounts(r, parked) && t < |r.count| && t < |r.state| && r.state[t] == Blocked
             && r.count[t] == Ext(r, parked)[t]
    ensures Shaped(r) && GoodOutcome(Go(Account(TryPurge(r), t, 1), parked, p))
  {
    hide Accounts, Account, Go, TryPurge, Ext, Shaped, GoodOutcome;
    ParkedCount(r, parked, t);
    TryPurgeKeeps(r, parked);
    AccountKeeps(TryPurge(r), parked, t, 1);
    GoKeeps(Account(TryPurge(r), t, 1), parked, p);
  }

  lemma ParkedExt(r: Sched, parked: set<nat>, t: nat)
    requires t < |r.state| && t in parked && t !in r.dynamic && r.state[t] != Finished
    ensures Ext(r, parked)[t] == 1
  {
  }

  lemma ParkCounts(s: Sched, parked: set<nat>, t: nat, timed: bool, spurious: bool)
    requires Accounts(s, parked) && t < |s.count| && s.state[t] == Running
    ensures Shaped(s)
    ensures var r := Block(ParkLists(s, t, timed, spurious), t);
            t < |r.state| && r.count[t] == Ext(r, parked + {t})[t]
  {
    var ext, m := Ext(s, parked), ParkLists(s, t, timed, spurious);
    hide Accounts, Base, Block, Ext;
    BaseOf(s, parked);
    ShapeOf(s, ext);
    RunningIsFree(s, parked, t);
    ExtPositive(s, parked);
    ListsSame(s, ext, m);
    BlockCounts(m, ext, t);
    BlockKeeps(m, ext, t);
    hide Shaped;
    ParkedExt(Block(m, t), parked + {t}, t);
  }

  lemma FinishTurn(w: World, p: Picks)
    requires Good(w)
    ensures Shaped(w.s) && GoodOutcome(Turn(w, Finish(p)))
  {
    BaseOf(w.s, w.parked);
    ShapeOf(w.s, Ext(w.s, w.parked));
    assert Turn(w, Finish(p)) == AfterFinish(MarkFinished(w.s, w.cur), w.parked, w.cur, p);
    MarkFinishedKeeps(w.s, w.parked, w.cur);
    hide *;
    FinishGoes(MarkFinished(w.s, w.cur), w.parked, w.cur, p);
  }

  lemma FinishGoes(m: Sched, parked: set<nat>, t: nat, p: Picks)
    requires Accounts(m, parked) && Shaped(m) && t < |m.count| && m.state[t] == Finished
    ensures GoodOutcome(AfterFinish(m, parked, t, p))
  {
    hide Accounts, Account, Go, Settle, Ext;
    SettleKeeps(m, parked);
    var q := Settle(m).0;
    SettleFinished(m, parked, t);
    AccountKeeps(q, parked, t, 0);
    GoKeeps(Account(q, t, 0), parked, p);
    if Settle(m).1 == Last {
      AllFinished(q, parked);
    }
  }

  /** A finished thread stays finished, and nothing but that counts against it. */
  lemma SettleFinished(s: Sched, parked: set<nat>, t: nat)
    requires Accounts(s, parked) && t < |s.count| && Shaped(s) && s.state[t] == Finished
    ensures var q := Settle(s).0;
            q.state[t] == Finished && q.count[t] == Ext(q, parked)[t]
    ensures Settle(s).1 == Last ==> Settle(s).0.finished == |s.count|
  {
    SettleKeeps(s, parked);
    var q := Settle(s).0;
    SettleStates(s, parked, t);
    BaseOf(q, parked);
    CountIs(q, Ext(q, parked), t);
    hide Accounts, Settle, Base;
  }

  lemma {:induction false} StartAllSame(s: Sched, parked: set<nat>)
    requires Accounts(s, parked) && Shaped(s)
    ensures |StartAllDynamic(s).state| == |s.state| && StartAllDynamic(s).finished == s.finished
    ensures forall u :: 0 <= u < |s.state| ==> (StartAllDynamic(s).state[u] == Finished <==> s.state[u] == Finished)
    decreases |s.dynamic|
  {
    hide Accounts, StartDynamic;
    if s.dynamic != [] {
      StartDynamicKeeps(s, parked);
      StartDynamicIs(s);
      StartAllSame(StartDynamic(s), parked);
    }
  }

  lemma SettleStates(s: Sched, parked: set<nat>, t: nat)
    requires Accounts(s, parked) && t < |s.count| && Shaped(s) && s.state[t] == Finished
    ensures Settle(s).0.state[t] == Finished
    ensures Settle(s).1 == Last ==> Settle(s).0.finished == |s.count|
  {
    hide Accounts, TryPurge, StartAllDynamic;
    TryPurgeKeeps(s, parked);
    var m := TryPurge(s);
    StartAllSame(m, parked);
    StartAllKeeps(m, parked);
    TryPurgeKeeps(StartAllDynamic(m), parked);
  }

  lemma {:induction false} AllFinishedStates(state: seq<ThreadState>)
    ensures FinishedCount(state) <= |state|
    ensures FinishedCount(state) == |state| ==> forall t :: 0 <= t < |state| ==> state[t] == Finished
  {
    if state != [] {
      AllFinishedStates(state[..|state| - 1]);
      assert forall t :: 0 <= t < |state| - 1 ==> state[t] == state[..|state| - 1][t];
    }
  }

  /** When all threads have finished, running_threads is empty, as the next iteration_begin needs it. */
  lemma SomeoneRuns(s: Sched, parked: set<nat>)
    requires Accounts(s, parked) && s.running != []
    ensures exists t :: 0 <= t < |s.state| && s.state[t] == Running
  {
    RunningRuns(s, parked, 0);
    BaseOf(s, parked);
    ShapeOf(s, Ext(s, parked));
    hide Accounts;
  }

  lemma AllFinished(s: Sched, parked: set<nat>)
    requires Accounts(s, parked) && s.finished == |s.count|
    ensures s.running == []
  {
    BaseOf(s, parked);
    ShapeOf(s, Ext(s, parked));
    AllFinishedStates(s.state);
    assert s.finished == FinishedCount(s.state);
    hide *;
    if s.running != [] {
      SomeoneRuns(s, parked);
    }
  }

  lemma TurnKeeps(w: World, act: Act)
    requires Good(w)
    ensures Shaped(w.s) && GoodOutcome(Turn(w, act))
  {
    BaseOf(w.s, w.parked);
    ShapeOf(w.s, Ext(w.s, w.parked));
    match act
    case Yield(rounds, p) =>
      hide Good, GoodOutcome;
      YieldTurn(w, rounds, p);
    case Park(timed, spurious, p) =>
      hide Good, GoodOutcome, Turn;
      ParkTurn(w, timed, spurious, p);
    case Finish(p) =>
      hide Good, GoodOutcome, Turn;
      FinishTurn(w, p);
    case Wake(t) => WakeTurn(w, t);
    case Create => CreateTurn(w);
  }

  lemma GoodIntro(s: Sched, parked: set<nat>, cur: nat)
    requires Accounts(s, parked) && cur < |s.count| && cur < |s.state| && s.state[cur] == Running
    ensures Good(World(s, parked, cur))
  {
    BaseOf(s, parked);
    ShapeOf(s, Ext(s, parked));
    hide Accounts;
  }

  lemma StillRunning(s: Sched, t: nat, cur: nat)
    requires Shaped(s) && t < |s.count| && cur < |s.count| && s.state[cur] == Running
    ensures Unblock(s, t).state[cur] == Running && Unpark(s, t).state[cur] == Running
            && |Unpark(s, t).state| == |s.state|
  {
  }

  lemma WakeTurn(w: World, t: nat)
    requires Good(w) && Shaped(w.s)
    ensures GoodOutcome(Turn(w, Wake(t)))
  {
    hide Accounts, Shaped, Unpark;
    if t in w.parked && t < |w.s.count| {
      UnparkKeeps(w.s, w.parked, t);
      StillRunning(w.s, t, w.cur);
      assert Turn(w, Wake(t)) == Runs(World(Unpark(w.s, t), w.parked - {t}, w.cur));
      hide Good;
      GoodIntro(Unpark(w.s, t), w.parked - {t}, w.cur);
    }
  }

  lemma CreateTurn(w: World)
    requires Good(w) && Shaped(w.s)
    ensures GoodOutcome(Turn(w, Create))
  {
    hide Accounts, Shaped, StartDynamic, Unblock;
    if w.s.dynamic != [] {
      StartDynamicKeeps(w.s, w.parked);
      StartDynamicIs(w.s);
      var m := w.s.(dynamic := w.s.dynamic[..|w.s.dynamic| - 1]);
      DynamicShape(w.s, m);
      StillRunning(m, w.s.dynamic[|w.s.dynamic| - 1], w.cur);
      assert Turn(w, Create) == Runs(World(StartDynamic(w.s), w.parked, w.cur));
      hide Good;
      GoodIntro(StartDynamic(w.s), w.parked, w.cur);
    }
  }

  lemma DynamicShape(s: Sched, m: Sched)
    requires Shaped(s) && m == s.(dynamic := m.dynamic)
    ensures Shaped(m)
  {
  }

  // ---- the beginning of an iteration

  function Upto(n: nat): (r: seq<nat>)
    ensures |r| == n && forall i :: 0 <= i < n ==> r[i] == i
  {
    seq(n, i => i)
  }

  /** iteration_begin before the dynamic threads are set aside. */
  function Fresh(n: nat): (s: Sched)
    ensures Shaped(s) && |s.count| == n
  {
    Sched(seq(n, t => 0), seq(n, t => Running), seq(n, y => seq(n, t => 0)), seq(n, y => seq(n, t => 0)),
      seq(n, y => 0),
          Upto(n), [], [], [], 0, false)
  }

  /** The loop that blocks the dynamic threads from thread i on. */
  function SetAside(s: Sched, i: nat): (r: Sched)
    requires Shaped(s) && i <= |s.count|
    ensures Shaped(r) && |r.count| == |s.count|
    decreases |s.count| - i
  {
    if i == |s.count| then s else SetAside(Block(s.(dynamic := s.dynamic + [i]), i), i + 1)
  }

  lemma {:induction false} NoneFinished(n: nat)
    ensures FinishedCount(seq(n, t => Running)) == 0
  {
    if n > 0 {
      assert seq(n, t => Running)[..n - 1] == seq(n - 1, t => Running);
      NoneFinished(n - 1);
    }
  }

  lemma UptoHas(n: nat)
    ensures Distinct(Upto(n)) && forall t: nat :: t in Upto(n) <==> t < n
  {
    forall t: nat
      ensures t in Upto(n) <==> t < n
    {
      if t < n {
        assert Upto(n)[t] == t;
      }
    }
  }

  lemma FreshLists(n: nat)
    ensures Lists(Fresh(n)) && Roster(Fresh(n), {})
  {
    UptoHas(n);
    hide Upto;
  }

  lemma FreshCounts(n: nat)
    ensures Counts(Fresh(n), Ext(Fresh(n), {})) && Rows(Fresh(n))
  {
    SumNone(n);
    forall t | 0 <= t < n
      ensures Column(Fresh(n).prio, t) == 0
    {
      ColumnOfZeros(Fresh(n).prio, t);
    }
    hide Sum, Column, Upto;
  }

  lemma FreshHolds(n: nat)
    ensures Accounts(Fresh(n), {})
  {
    FreshLists(n);
    FreshCounts(n);
    NoneFinished(n);
    assert !Fresh(n).fault && Fresh(n).finished == 0 && Fresh(n).state == seq(n, t => Running);
    hide Fresh, FinishedCount, Lists, Counts, Rows, Roster, Ext;
  }

  lemma ExtAside(s: Sched, r: Sched, i: nat)
    requires |s.state| == |r.state| && i < |s.state| && i !in s.dynamic && r.dynamic == s.dynamic + [i]
    requires forall u :: 0 <= u < |s.state| ==> (r.state[u] == Finished <==> s.state[u] == Finished)
    ensures Ext(r, {}) == Ext(s, {})[i := Ext(s, {})[i] + 1]
  {
  }

  lemma RosterAside(s: Sched, r: Sched, i: nat)
    requires Roster(s, {}) && |s.state| == |r.state| && i < |s.state| && i !in s.dynamic && r.dynamic == s.dynamic + [i]
    requires s.state[i] != Finished && r.timed == s.timed && r.spurious == s.spurious
    requires forall u :: 0 <= u < |s.state| ==> (r.state[u] == Finished <==> s.state[u] == Finished)
    ensures Roster(r, {})
  {
  }

  lemma AsideOne(s: Sched, i: nat)
    requires Accounts(s, {}) && i < |s.count| && s.state[i] == Running
    ensures Shaped(s) && Accounts(Block(s.(dynamic := s.dynamic + [i]), i), {})
  {
    var ext := Ext(s, {});
    BaseOf(s, {});
    ShapeOf(s, ext);
    ExtPositive(s, {});
    RunningIsFree(s, {}, i);
    hide Base, FinishedCount, Roster, Ext, Block;
    var m := s.(dynamic := s.dynamic + [i]);
    ListsSame(s, ext, m);
    BlockKeeps(m, ext, i);
    var r := Block(m, i);
    FinishedSame(s.state, r.state);
    ExtAside(s, r, i);
    RosterAside(s, r, i);
  }

  lemma {:induction false} SetAsideKeeps(s: Sched, i: nat)
    requires Accounts(s, {}) && i <= |s.count| == |s.state| && forall u :: i <= u < |s.count| ==> s.state[u] == Running
    ensures Shaped(s) && Accounts(SetAside(s, i), {})
    ensures forall u :: 0 <= u < i && s.state[u] == Running ==>
              u < |SetAside(s, i).state| && SetAside(s, i).state[u] == Running
    decreases |s.count| - i
  {
    hide Accounts, Block, Ext, Base;
    BaseOf(s, {});
    ShapeOf(s, Ext(s, {}));
    if i < |s.count| {
      AsideOne(s, i);
      BlockElse(s, i);
      hide Shaped;
      SetAsideKeeps(Block(s.(dynamic := s.dynamic + [i]), i), i + 1);
    }
  }

  /** At the start nobody blocks anybody, so that setting a thread aside stops only that thread. */
  lemma BlockElse(s: Sched, i: nat)
    requires Accounts(s, {}) && Shaped(s) && i < |s.count| && s.state[i] == Running
    ensures var m := Block(s.(dynamic := s.dynamic + [i]), i);
            |m.state| == |s.state| && forall u :: 0 <= u < |s.state| && u != i && s.state[u] == Running ==>
                m.state[u] == Running
  {
    RunningIsFree(s, {}, i);
    hide Accounts;
    var m := s.(dynamic := s.dynamic + [i]);
    BlockIs(m, i);
    var m1 := m.(count := m.count[i := m.count[i] + 1], running := Without(m.running, Index(m.running, i)),
      state := m.state[i := Blocked]);
    hide Block;
    OnThreadBlockRuns(m1, i);
  }

  lemma BlockIs(m: Sched, i: nat)
    requires Shaped(m) && i < |m.count| && m.state[i] == Running && m.count[i] == 0 && i in m.running
    ensures Block(m, i) == OnThreadBlock(m.(count := m.count[i := m.count[i] + 1],
            running := Without(m.running, Index(m.running, i)),
                                            state := m.state[i := Blocked]), i)
  {
  }

  lemma OnThreadBlockRuns(s: Sched, t: nat)
    requires Shaped(s) && t < |s.count|
    ensures |OnThreadBlock(s, t).state| == |s.state|
    ensures forall u :: 0 <= u < |s.state| && s.state[u] == Running ==> OnThreadBlock(s, t).state[u] == Running
  {
    if s.total[t] != 0 {
      PurgeRuns(s, t, 0);
    }
    hide PurgeRow;
  }

  lemma {:induction false} PurgeRuns(s: Sched, t: nat, i: nat)
    requires Shaped(s) && t < |s.count| && i <= |s.count|
    ensures forall u :: 0 <= u < |s.count| && s.state[u] == Running ==> PurgeRow(s, t, i).state[u] == Running
    decreases |s.count| - i
  {
    if i < |s.count| {
      SlotRuns(s, t, i);
      hide PurgeSlot, Shaped;
      PurgeRuns(PurgeSlot(s, t, i), t, i + 1);
    }
  }

  lemma SlotRuns(s: Sched, t: nat, i: nat)
    requires Shaped(s) && t < |s.count| && i < |s.count|
    ensures |PurgeSlot(s, t, i).state| == |s.state|
    ensures forall u :: 0 <= u < |s.count| && s.state[u] == Running ==> PurgeSlot(s, t, i).state[u] == Running
  {
  }

  /** iteration_begin with n threads, the last d of them dynamic, and `first` chosen to start. */
  function Start(n: nat, d: nat, first: nat): World
    requires d <= n
  {
    World(SetAside(Fresh(n), n - d), {}, first)
  }

  /** w is reached by these acts, every one of which found a thread to run. */
  ghost predicate Reached(n: nat, d: nat, first: nat, acts: seq<Act>, w: World)
    decreases |acts|
  {
    if acts == [] then d <= n && first < n - d && w == Start(n, d, first)
    else
      exists v :: Reached(n, d, first, acts[..|acts| - 1], v) && Shaped(v.s) && v.cur < |v.s.count|
             && Turn(v, acts[|acts| - 1]) == Runs(w)
  }

  lemma StartHolds(n: nat, d: nat, first: nat)
    requires d <= n && first < n - d
    ensures Good(Start(n, d, first))
  {
    FreshHolds(n);
    FreshState(n);
    hide Accounts, Fresh, SetAside;
    SetAsideKeeps(Fresh(n), n - d);
    hide Good;
    GoodIntro(SetAside(Fresh(n), n - d), {}, first);
  }

  lemma FreshState(n: nat)
    ensures |Fresh(n).state| == n && forall u :: 0 <= u < n ==> Fresh(n).state[u] == Running
  {
  }

  /** Main theorem: in every reachable state the accounts hold, no RL_VERIFY of the bookkeeping has failed, and
      the current thread is running. */
  lemma {:induction false} Always(n: nat, d: nat, first: nat, acts: seq<Act>, w: World)
    requires Reached(n, d, first, acts, w)
    ensures Good(w) && !w.s.fault
    decreases |acts|
  {
    if acts == [] {
      StartHolds(n, d, first);
    } else {
      var v :| Reached(n, d, first, acts[..|acts| - 1], v) && Shaped(v.s) && v.cur < |v.s.count|
          && Turn(v, acts[|acts| - 1]) == Runs(w);
      hide Turn, Good, Reached;
      Always(n, d, first, acts[..|acts| - 1], v);
      TurnKeeps(v, acts[|acts| - 1]);
    }
    GoodMeans(w);
  }

  lemma GoodMeans(w: World)
    requires Good(w)
    ensures !w.s.fault
  {
  }

  /** Main theorem: what the accounts say of one thread, in every reachable state. */
  lemma BlockCountIs(n: nat, d: nat, first: nat, acts: seq<Act>, w: World, t: nat)
    requires Reached(n, d, first, acts, w) && t < |w.s.count|
    ensures var s := w.s;
            && t < |s.state| && t < |s.total| && t < |s.prio|
            && s.count[t] == Bit(t in w.parked) + Bit(t in s.dynamic) + Bit(s.state[t] == Finished) + Column(s.prio, t)
            && s.total[t] == Sum(s.prio[t])
            && (t in s.running <==> s.count[t] == 0) && (s.count[t] == 0 <==> s.state[t] == Running)
            && Distinct(s.running)
  {
    Always(n, d, first, acts, w);
    hide Reached;
    AccountsMean(w.s, w.parked, t);
  }

  lemma AccountsMean(s: Sched, parked: set<nat>, t: nat)
    requires Accounts(s, parked) && t < |s.count|
    ensures t < |s.state| && t < |s.total| && t < |s.prio|
    ensures s.count[t] == Bit(t in parked) + Bit(t in s.dynamic) + Bit(s.state[t] == Finished) + Column(s.prio, t)
    ensures s.total[t] == Sum(s.prio[t])
    ensures (t in s.running <==> s.count[t] == 0) && (s.count[t] == 0 <==> s.state[t] == Running) && Distinct(s.running)
  {
    hide Sum, Column, FinishedCount, Roster;
  }

  /** Main theorem: when an iteration is over, running_threads is empty, so that the next iteration, which only
      appends to it, starts from an empty list. */
  lemma EmptyAtTheEnd(n: nat, d: nat, first: nat, acts: seq<Act>, w: World, act: Act)
    requires Reached(n, d, first, acts, w) && Shaped(w.s) && w.cur < |w.s.count| && Turn(w, act).Over?
    ensures Turn(w, act).s.running == []
  {
    Always(n, d, first, acts, w);
    hide Reached, Turn;
    TurnKeeps(w, act);
  }

  // ---- nobody to run

  /** Three threads: 2 parks, 1 parks with a timeout, 0 finishes. After k acts. */
  function Unlucky(k: nat): World {
    var none: seq<nat> := [0, 0, 0];
    match k
    case 0 => World(Sched([0, 0, 0], [Running, Running, Running], [none, none, none], [none, none, none], none,
                          [0, 1, 2], [], [], [], 0, false), {}, 2)
    case 1 =>
      World(Sched([0, 0, 3], [Running, Running, Blocked], [[0, 0, 1], [0, 0, 1], none], [none, none, none], [1, 1, 0],
                          [0, 1], [], [], [], 0, false), {2}, 1)
    case _ =>
      World(Sched([0, 3, 2], [Running, Blocked, Blocked], [[0, 1, 1], none, [0, 1, 0]], [none, none, none], [2, 0, 1],
                          [0], [1], [], [], 0, false), {1, 2}, 0)
  }

  lemma Puts()
    ensures Put([0, 0, 0], 2, 1) == [0, 0, 1] && Put([0, 0, 0], 1, 1) == [0, 1, 0] && Put([0, 0, 1], 1, 1) == [0, 1, 1]
    ensures Put([0, 0, 0], 2, 0) == [0, 0, 0] && Put([0, 0, 0], 1, 0) == [0, 0, 0] && Put([0, 0, 1], 2, 0) == [0, 0, 0]
    ensures Put([0, 1, 1], 1, 0) == [0, 0, 1]
  {
  }

  lemma UnluckyFirstYields(r: Sched)
    requires r == Unlucky(0).s.(count := [0, 0, 1], state := [Running, Running, Blocked], running := [0, 1])
    ensures YieldPriority(r, 2, 1) == Unlucky(1).s
  {
    Puts();
    hide Put;
    var none := [0, 0, 0];
    var y0 := YieldOne(r, 2, 1, 0);
    assert y0 == r.(count := [0, 0, 2], prio := [[0, 0, 1], none, none], total := [1, 0, 0]);
    var y1 := YieldOne(y0, 2, 1, 1);
    assert y1 == r.(count := [0, 0, 3], prio := [[0, 0, 1], [0, 0, 1], none], total := [1, 1, 0]);
    var y2 := YieldOne(y1, 2, 1, 2);
    assert y2 == y1;
    assert YieldFrom(r, 2, 1, 0) == YieldFrom(y0, 2, 1, 1) == YieldFrom(y1, 2, 1, 2) == YieldFrom(y2, 2, 1, 3) == y1;
  }

  lemma UnluckyFirst()
    ensures Turn(Unlucky(0), Park(false, false, Picks(0, 0, 1))) == Runs(Unlucky(1))
  {
    var s := Unlucky(0).s;
    var r := Block(s, 2);
    assert r == s.(count := [0, 0, 1], state := [Running, Running, Blocked], running := [0, 1]);
    hide Block, Without;
    assert ParkLists(s, 2, false, false) == s;
    hide ParkLists, PurgeAll;
    assert TryPurge(r) == r;
    UnluckyFirstYields(r);
    hide YieldPriority, TryPurge, Credit;
    assert Account(r, 2, 1) == Unlucky(1).s;
    hide Account, Unpark;
    assert Go(Unlucky(1).s, {2}, Picks(0, 0, 1)) == Runs(Unlucky(1));
  }

  lemma UnluckyParks()
    ensures var s := Unlucky(1).s;
            Block(ParkLists(s, 1, true, false), 1)
            == s.(count := [0, 1, 2], state := [Running, Blocked, Blocked], running := [0], timed := [1],
                  prio := [[0, 0, 1], [0, 0, 0], [0, 0, 0]], total := [1, 0, 0])
  {
    Puts();
    hide Put;
    var none := [0, 0, 0];
    var s := ParkLists(Unlucky(1).s, 1, true, false);
    var m := s.(count := [0, 1, 3], state := [Running, Blocked, Blocked], running := [0]);
    assert Index(s.running, 1) == 1 && Without(s.running, 1) == [0];
    BlockIs(s, 1);
    assert s.count[1 := 1] == m.count && s.state[1 := Blocked] == m.state;
    hide Block;
    assert Block(s, 1) == OnThreadBlock(m, 1) == PurgeRow(m, 1, 0);
    assert PurgeSlot(m, 1, 0) == m && PurgeSlot(m, 1, 1) == m;
    var r := PurgeSlot(m, 1, 2);
    assert r == m.(count := [0, 1, 2], prio := [[0, 0, 1], none, none], total := [1, 0, 0]);
    assert PurgeRow(m, 1, 0) == PurgeRow(m, 1, 1) == PurgeRow(m, 1, 2) == PurgeRow(r, 1, 3) == r;
  }

  lemma UnluckySecond()
    ensures Turn(Unlucky(1), Park(true, false, Picks(0, 0, 0))) == Runs(Unlucky(2))
  {
    Puts();
    UnluckyParks();
    hide Put, Block;
    var none := [0, 0, 0];
    var r := Block(ParkLists(Unlucky(1).s, 1, true, false), 1);
    assert TryPurge(r) == r;
    UnluckyYields(r);
    assert Account(r, 1, 1) == Unlucky(2).s;
  }

  lemma UnluckyYields(r: Sched)
    requires r == Unlucky(1).s.(count := [0, 1, 2], state := [Running, Blocked, Blocked], running := [0], timed := [1],
                                prio := [[0, 0, 1], [0, 0, 0], [0, 0, 0]], total := [1, 0, 0])
    ensures YieldPriority(r, 1, 1) == Unlucky(2).s
  {
    Puts();
    hide Put;
    var none := [0, 0, 0];
    var y0 := YieldOne(r, 1, 1, 0);
    assert y0 == r.(count := [0, 2, 2], prio := [[0, 1, 1], none, none], total := [2, 0, 0]);
    var y1 := YieldOne(y0, 1, 1, 1);
    assert y1 == y0;
    var y2 := YieldOne(y1, 1, 1, 2);
    assert y2 == r.(count := [0, 3, 2], prio := [[0, 1, 1], none, [0, 1, 0]], total := [2, 0, 1]);
    assert YieldFrom(r, 1, 1, 0) == YieldFrom(y0, 1, 1, 1) == YieldFrom(y1, 1, 1, 2) == YieldFrom(y2, 1, 1, 3) == y2;
  }

  lemma UnluckyStart()
    ensures Start(3, 0, 2) == Unlucky(0)
  {
    var s := Fresh(3);
    assert s.count == s.total == [0, 0, 0] && s.state == [Running, Running, Running] && Upto(3) == [0, 1, 2];
    forall y | 0 <= y < 3
      ensures s.prio[y] == s.since[y] == [0, 0, 0]
    {
    }
    assert s.prio == s.since == [[0, 0, 0], [0, 0, 0], [0, 0, 0]];
    assert SetAside(s, 3) == s;
  }

  /** A reachable state in which the current thread finishes, no deadlock is found, and nobody is there to run. */
  ghost predicate FindsNobody(acts: seq<Act>, w: World) {
    Reached(3, 0, 2, acts, w) && Shaped(w.s) && w.cur < |w.s.count| && Turn(w, Finish(Picks(0, 0, 0))) == Nobody
  }

  lemma TwoParks() returns (acts: seq<Act>)
    ensures Reached(3, 0, 2, acts, Unlucky(2))
  {
    var first, second := Park(false, false, Picks(0, 0, 1)), Park(true, false, Picks(0, 0, 0));
    NoActs();
    UnluckyShapes();
    hide *;
    UnluckyFirst();
    OneMore(3, 0, 2, [], Unlucky(0), first, Unlucky(1));
    UnluckySecond();
    OneMore(3, 0, 2, [] + [first], Unlucky(1), second, Unlucky(2));
    acts := [] + [first] + [second];
  }

  lemma NoActs()
    ensures Reached(3, 0, 2, [], Unlucky(0))
  {
    UnluckyStart();
    hide Start, Unlucky;
  }

  lemma OneMore(n: nat, d: nat, first: nat, acts: seq<Act>, v: World, act: Act, w: World)
    requires Reached(n, d, first, acts, v) && Shaped(v.s) && v.cur < |v.s.count| && Turn(v, act) == Runs(w)
    ensures Reached(n, d, first, acts + [act], w)
  {
    var all := acts + [act];
    assert all[..|all| - 1] == acts && all[|all| - 1] == act;
    hide Turn;
  }

  lemma UnluckyShapes()
    ensures Shaped(Unlucky(0).s) && Unlucky(0).cur < |Unlucky(0).s.count|
    ensures Shaped(Unlucky(1).s) && Unlucky(1).cur < |Unlucky(1).s.count|
    ensures Shaped(Unlucky(2).s) && Unlucky(2).cur < |Unlucky(2).s.count|
  {
  }

  // ---- when nobody is found

  /** schedule_impl draws a timed waiter's index below timed_thread_count_ when nobody runs. */
  predicate InRange(s: Sched, p: Picks) {
    s.running == [] && s.timed != [] ==> p.timed < |s.timed|
  }

  lemma {:induction false} PurgeAllZero(s: Sched, ext: seq<int>, i: nat)
    requires Base(s, ext) && NonNegative(ext) && i <= |s.count| && forall y: nat :: y < i ==> RowZero(s, y, |s.count|)
    ensures Shaped(s) && forall y: nat :: y < |s.count| ==> RowZero(PurgeAll(s, i), y, |s.count|)
    decreases |s.count| - i
  {
    ShapeOf(s, ext);
    if i < |s.count| {
      OnThreadBlockKeeps(s, ext, i);
      var m := OnThreadBlock(s, i);
      forall y: nat | y < i + 1
        ensures RowZero(m, y, |s.count|)
      {
        if y < i {
          RowKept(s, m, i, y);
        }
      }
      hide Base, OnThreadBlock, NonNegative;
      PurgeAllZero(m, ext, i + 1);
    }
  }

  lemma RowKept(s: Sched, m: Sched, t: nat, y: nat)
    requires Shaped(s) && Spared(s, m, t) && y != t && y < |s.count| && RowZero(s, y, |s.count|)
    ensures RowZero(m, y, |s.count|)
  {
  }

  /** When nobody yields, a thread runs unless it is blocked for another reason. */
  lemma ZeroRuns(s: Sched, ext: seq<int>, t: nat)
    requires Base(s, ext) && t < |s.count| && forall y: nat :: y < |s.count| ==> RowZero(s, y, |s.count|)
    ensures |ext| == |s.count| && s.count[t] == ext[t] && (ext[t] == 0 ==> t in s.running)
  {
    forall j | 0 <= j < |s.prio| && t < |s.prio[j]|
      ensures s.prio[j][t] == 0
    {
      assert RowZero(s, j, |s.count|);
    }
    ColumnOfZeros(s.prio, t);
    hide Sum, Column;
  }

  /** After yield_priority somebody runs, or no yield blocks anybody and everybody has another reason. */
  lemma YieldLeaves(s: Sched, ext: seq<int>, t: nat, rounds: nat)
    requires Base(s, ext) && NonNegative(ext) && t < |s.count| && rounds > 0
    requires s.state[t] != Finished && ColumnZero(s, t, 0)
    ensures Shaped(s) && |ext| == |s.count|
    ensures YieldPriority(s, t, rounds).running == [] ==>
              forall u :: 0 <= u < |s.count| ==> YieldPriority(s, t, rounds).count[u] == ext[u] != 0
  {
    ShapeOf(s, ext);
    hide Base, YieldFrom, PurgeAll, ColumnZero, Shaped, RowZero;
    YieldFromKeeps(s, ext, t, rounds, 0);
    var m := YieldFrom(s, t, rounds, 0);
    if m.running == [] {
      PurgeAllKeeps(m, ext, 0);
      PurgeAllZero(m, ext, 0);
      forall u | 0 <= u < |s.count|
        ensures PurgeAll(m, 0).count[u] == ext[u] && (ext[u] == 0 ==> u in PurgeAll(m, 0).running)
      {
        ZeroRuns(PurgeAll(m, 0), ext, u);
      }
    }
  }

  /** The same for the accounting part of schedule_impl. */
  lemma AccountLeaves(s: Sched, parked: set<nat>, t: nat, rounds: nat)
    requires Accounts(s, parked) && t < |s.count| && s.count[t] == Ext(s, parked)[t] && rounds > 0
             && s.state[t] != Finished
    ensures Shaped(s) && |s.state| == |s.count| && Kept(s, Ext(s, parked), Account(s, t, rounds))
    ensures Account(s, t, rounds).running == [] ==>
              forall u :: 0 <= u < |s.count| ==> Account(s, t, rounds).count[u] == Ext(s, parked)[u] != 0
  {
    var ext := Ext(s, parked);
    BaseOf(s, parked);
    ShapeOf(s, ext);
    ExtPositive(s, parked);
    DiagonalZero(s, ext, t);
    hide Accounts, Base, Credit, YieldPriority, ColumnZero, Shaped, Ext;
    var m := if s.total[t] != 0 then Credit(s, t, 0) else s;
    KeptSelf(s, ext, t, t);
    if s.total[t] != 0 {
      CreditCount(s, t, 0);
      CreditKeeps(s, ext, t, 0);
    }
    NoYieldBlocks(m, ext, t);
    YieldPriorityKeeps(m, ext, t, rounds);
    YieldLeaves(m, ext, t, rounds);
    KeptTwice(s, ext, m, ext, YieldPriority(m, t, rounds));
  }

  /** The state in which schedule_impl chooses the next thread. */
  function AtChoice(w: World, act: Act): Sched
    requires Shaped(w.s) && w.cur < |w.s.count|
  {
    match act
    case Yield(rounds, _) => Account(w.s, w.cur, rounds)
    case Park(timed, spurious, _) => Account(TryPurge(Block(ParkLists(w.s, w.cur, timed, spurious), w.cur)), w.cur, 1)
    case Finish(_) => MarkFinished(w.s, w.cur)
    case _ => w.s
  }

  lemma GoFinds(s: Sched, parked: set<nat>, p: Picks)
    requires Shaped(s)
    ensures Go(s, parked, p) == Nobody <==> s.running == [] && !Wakes(s, s.timed, p.timed)
  {
    hide Unpark;
  }

  lemma KeptRuns(s: Sched, parked: set<nat>, t: nat, r: Sched)
    requires Kept(s, Ext(s, parked), r) && t < |s.state| && Ext(s, parked)[t] == 0 && r.count[t] == 0
    ensures t in r.running
  {
    hide Sum, Column, Ext;
  }

  /** A thread that yields or is preempted leaves somebody to run, if only itself. */
  lemma YieldFinds(w: World, rounds: nat, p: Picks)
    requires Good(w)
    ensures Shaped(w.s) && Turn(w, Yield(rounds, p)) != Nobody
  {
    var (s, t) := (w.s, w.cur);
    BaseOf(s, w.parked);
    ShapeOf(s, Ext(s, w.parked));
    RunningIsFree(s, w.parked, t);
    var a := Account(s, t, rounds);
    assert Turn(w, Yield(rounds, p)) == Go(a, w.parked, p);
    GoFinds(a, w.parked, p);
    if rounds > 0 {
      hide Accounts, Account, Turn;
      AccountLeaves(s, w.parked, t, rounds);
    } else {
      CreditRuns(s, w.parked, t);
    }
  }

  lemma CreditRuns(s: Sched, parked: set<nat>, t: nat)
    requires Accounts(s, parked) && Shaped(s) && t < |s.count| && s.state[t] == Running
    ensures Account(s, t, 0).running != []
  {
    var ext := Ext(s, parked);
    BaseOf(s, parked);
    RunningIsFree(s, parked, t);
    ExtPositive(s, parked);
    DiagonalZero(s, ext, t);
    hide Accounts, Base, Credit, Ext;
    if s.total[t] != 0 {
      CreditCount(s, t, 0);
      CreditKeeps(s, ext, t, 0);
      ExtPositive(s, parked);
      assert Kept(s, ext, Credit(s, t, 0));
      KeptRuns(s, parked, t, Credit(s, t, 0));
    }
  }

  /** Neither does a thread that parks, unless there is a deadlock. */
  lemma ParkFinds(w: World, timed: bool, spurious: bool, p: Picks)
    requires Good(w) && Shaped(w.s) && InRange(AtChoice(w, Park(timed, spurious, p)), p)
    ensures Turn(w, Park(timed, spurious, p)) != Nobody
  {
    var (s, t, parked) := (w.s, w.cur, w.parked + {w.cur});
    var r := Block(ParkLists(s, t, timed, spurious), t);
    var q := TryPurge(r);
    var a := Account(q, t, 1);
    assert a == AtChoice(w, Park(timed, spurious, p));
    BaseOf(s, w.parked);
    ShapeOf(s, Ext(s, w.parked));
    hide Accounts, Account, Block, TryPurge, Ext, Shaped, ParkLists;
    ParkKeeps(s, w.parked, t, timed, spurious);
    ParkCounts(s, w.parked, t, timed, spurious);
    ParkedCount(r, parked, t);
    TryPurgeKeeps(r, parked);
    if !(Stuck(r) && Stuck(q)) {
      StuckNot(r, q);
      ParkChooses(q, parked, t, p);
    }
  }

  lemma StuckNot(r: Sched, q: Sched)
    requires Shaped(r) && q == TryPurge(r) && !(Stuck(r) && Stuck(q))
    ensures !Stuck(q)
  {
  }

  lemma ParkChooses(q: Sched, parked: set<nat>, t: nat, p: Picks)
    requires Accounts(q, parked) && Shaped(q) && t < |q.count| && q.count[t] == Ext(q, parked)[t]
             && q.state[t] != Finished
    requires !Stuck(q) && InRange(Account(q, t, 1), p)
    ensures Go(Account(q, t, 1), parked, p) != Nobody
  {
    var (a, ext) := (Account(q, t, 1), Ext(q, parked));
    AccountLeaves(q, parked, t, 1);
    GoFinds(a, parked, p);
    if a.running == [] {
      if q.running != [] {
        RunningRuns(q, parked, 0);
        RunningIsFree(q, parked, q.running[0]);
        assert false;
      }
      assert a.timed == q.timed != [];
      var x := q.timed[p.timed];
      assert x in q.timed;
      TimedExt(q, parked, x);
      hide Accounts, Account, Ext;
      assert Wakes(a, a.timed, p.timed);
    }
  }

  lemma TimedExt(s: Sched, parked: set<nat>, x: nat)
    requires Accounts(s, parked) && x in s.timed
    ensures x < |s.state| == |s.count| && Ext(s, parked)[x] == 1 && s.state[x] != Finished
  {
    hide Counts, Lists, Rows;
  }

  // ---- a thread that finishes

  /** Nobody is found exactly when a thread finishes in such a state: nobody else runs, nobody is blocked only by this
      thread's yield entry, and the timed waiter that is picked is still blocked by another thread's entry. */
  ghost predicate StrandsPick(w: World, p: Picks)
    requires Shaped(w.s) && w.cur < |w.s.count|
  {
    var s := w.s;
    && s.running == [w.cur]
    && (forall u: nat :: !FreedBy(s, w.cur, u))
    && p.timed < |s.timed|
    && exists y :: 0 <= y < |s.count| && y != w.cur && s.timed[p.timed] < |s.count| && s.prio[y][s.timed[p.timed]] > 0
  }

  /** Blocked by t's yield entry alone. */
  predicate FreedBy(s: Sched, t: nat, u: nat) {
    u < |s.count| && t < |s.prio| && u < |s.prio[t]| && s.count[u] == 1 && s.prio[t][u] > 0
  }

  /** A retry loop that reports no deadlock leaves somebody running, or has changed nothing and somebody is timed. */
  lemma SettleNormal(m: Sched, parked: set<nat>)
    requires Accounts(m, parked) && Shaped(m) && Settle(m).1 == Normal
    ensures Settle(m).0.running != [] || (Settle(m).0 == m && m.timed != [])
  {
    hide Accounts, PurgeAll, StartAllDynamic, Shaped;
    TryPurgeKeeps(m, parked);
    var q := TryPurge(m);
    if Stuck(m) && Stuck(q) {
      StartAllSame(q, parked);
      StartAllKeeps(q, parked);
      StartAllTimed(q, parked);
      TryPurgeKeeps(StartAllDynamic(q), parked);
    }
  }

  lemma {:induction false} StartAllTimed(s: Sched, parked: set<nat>)
    requires Accounts(s, parked) && Shaped(s)
    ensures StartAllDynamic(s).timed == s.timed
    decreases |s.dynamic|
  {
    hide Accounts, StartDynamic;
    if s.dynamic != [] {
      StartDynamicKeeps(s, parked);
      StartDynamicIs(s);
      StartAllTimed(StartDynamic(s), parked);
    }
  }

  lemma FinishedAccount(q: Sched, parked: set<nat>, t: nat)
    requires Accounts(q, parked) && Shaped(q) && t < |q.count| && q.state[t] == Finished
    ensures Account(q, t, 0) == q
  {
    hide Sum, Column, Ext, Roster, FinishedCount;
  }

  /** What happens once the thread is marked. */
  lemma AfterFinishFinds(m: Sched, parked: set<nat>, t: nat, p: Picks)
    requires Accounts(m, parked) && Shaped(m) && t < |m.count| && m.state[t] == Finished && InRange(m, p)
    ensures AfterFinish(m, parked, t, p) == Nobody <==>
              && m.running == [] && m.timed != [] && p.timed < |m.timed|
              && m.timed[p.timed] < |m.count| && m.count[m.timed[p.timed]] != 1
  {
    hide Accounts, Settle, Account, Go, Ext;
    SettleKeeps(m, parked);
    SettleFinished(m, parked, t);
    var q := Settle(m).0;
    FinishedAccount(q, parked, t);
    GoFinds(q, parked, p);
    if m.timed != [] {
      assert m.timed[0] in m.timed;
      TimedExt(m, parked, m.timed[0]);
      NotAllFinished(m, parked, m.timed[0]);
      SettleTimed(m);
      if m.running == [] {
        assert m.timed[p.timed] in m.timed;
        TimedExt(m, parked, m.timed[p.timed]);
      }
    }
    if Settle(m).1 == Normal {
      SettleNormal(m, parked);
    }
  }

  lemma NotAllFinished(m: Sched, parked: set<nat>, x: nat)
    requires Accounts(m, parked) && x < |m.state| == |m.count| && m.state[x] != Finished
    ensures m.finished != |m.count|
  {
    AllFinishedStates(m.state);
    hide Base, Roster;
  }

  lemma SettleTimed(m: Sched)
    requires Shaped(m) && m.timed != [] && m.finished != |m.count|
    ensures Settle(m) == (m, Normal)
  {
  }

  /** What marking thread t changes: its row is empty, the others and the lists are as before. */
  ghost predicate Marked(s: Sched, m: Sched, t: nat)
    requires Shaped(s) && t < |s.count|
  {
    && Shaped(m) && |m.count| == |s.count| && |m.state| == |s.state|
    && m.prio == s.prio[t := m.prio[t]] && (forall u :: 0 <= u < |s.count| ==> m.prio[t][u] == 0)
    && m.timed == s.timed && m.dynamic == s.dynamic && m.state[t] == Finished
    && forall u :: 0 <= u < |s.state| && u != t ==> (m.state[u] == Finished <==> s.state[u] == Finished)
  }

  lemma MarkedOf(s: Sched, b: Sched, t: nat)
    requires Shaped(s) && Shaped(b) && t < |s.count| && |b.count| == |s.count| && SameLists(s, b)
             && RowZero(b, t, |s.count|)
    requires forall y :: 0 <= y < |s.count| && y != t ==> b.prio[y] == s.prio[y]
    ensures Marked(s, b.(state := b.state[t := Finished], finished := b.finished + 1), t)
  {
  }

  lemma MarkedIs(s: Sched, parked: set<nat>, t: nat)
    requires Accounts(s, parked) && t < |s.count| && s.state[t] == Running
    ensures Shaped(s) && Marked(s, MarkFinished(s, t), t) && Accounts(MarkFinished(s, t), parked)
  {
    hide Accounts, Block, Base, Ext, Marked, Roster, FinishedCount, RowZero, SameLists, NonNegative;
    var ext := Ext(s, parked);
    BaseOf(s, parked);
    ShapeOf(s, ext);
    var b := Block(s, t);
    RunningIsFree(s, parked, t);
    ExtPositive(s, parked);
    MarkFinishedKeeps(s, parked, t);
    OneMoreReason(ext, t);
    BlockKeeps(s, ext, t);
    ShapeOf(b, ext[t := ext[t] + 1]);
    MarkedOf(s, b, t);
  }

  lemma OneMoreReason(ext: seq<int>, t: nat)
    requires NonNegative(ext) && t < |ext|
    ensures NonNegative(ext[t := ext[t] + 1])
  {
  }

  lemma MarkedExt(s: Sched, parked: set<nat>, t: nat, m: Sched, u: nat)
    requires Shaped(s) && t < |s.count| && Marked(s, m, t) && u < |s.count| && u != t
    ensures Ext(m, parked)[u] == Ext(s, parked)[u]
  {
  }

  /** The block counts once the thread has been marked: one less for whom its yield entries blocked. */
  lemma MarkedCount(s: Sched, parked: set<nat>, t: nat, m: Sched, u: nat)
    requires Accounts(s, parked) && Accounts(m, parked) && Shaped(s) && t < |s.count| && Marked(s, m, t)
    requires u < |s.count| && u != t
    ensures |m.count| == |s.count| && m.count[u] + (if s.prio[t][u] > 0 then 1 else 0) == s.count[u]
  {
    hide Accounts, Base, Ext, Column;
    BaseOf(s, parked);
    BaseOf(m, parked);
    CountIs(s, Ext(s, parked), u);
    CountIs(m, Ext(m, parked), u);
    MarkedExt(s, parked, t, m, u);
    ColumnPut(s.prio, t, m.prio[t], u);
  }

  lemma MarkedRuns(s: Sched, parked: set<nat>, t: nat, m: Sched, u: nat)
    requires Accounts(s, parked) && Accounts(m, parked) && Shaped(s) && t < |s.count| && Marked(s, m, t)
             && s.state[t] == Running
    requires u < |s.count|
    ensures u in m.running <==> u != t && (u in s.running || FreedBy(s, t, u))
    ensures FreedBy(s, t, u) ==> u != t
  {
    hide Accounts, Base, Column, Sum, Distinct, Ext;
    RunningIsFree(s, parked, t);
    AccountsMean(m, parked, u);
    AccountsMean(s, parked, u);
    if u != t {
      MarkedCount(s, parked, t, m, u);
    }
  }

  lemma MarkedIdle(s: Sched, parked: set<nat>, t: nat, m: Sched)
    requires Accounts(s, parked) && Accounts(m, parked) && Shaped(s) && t < |s.count| && Marked(s, m, t)
             && s.state[t] == Running
    ensures m.running == [] <==> s.running == [t] && forall u: nat :: !FreedBy(s, t, u)
  {
    assert |m.count| == |s.count| by {
      MarkedRows(s, t, m);
    }
    assert forall u: nat :: FreedBy(s, t, u) ==> u < |s.count|;
    hide *;
    RunningIsFree(s, parked, t);
    IdleAre(s, parked);
    IdleAre(m, parked);
    forall u: nat | u < |s.count|
      ensures u in m.running <==> u != t && (u in s.running || FreedBy(s, t, u))
      ensures FreedBy(s, t, u) ==> u != t
    {
      MarkedRuns(s, parked, t, m, u);
    }
    OnlyOne(s.running, t);
    assert m.running != [] ==> m.running[0] in m.running;
  }

  lemma IdleAre(s: Sched, parked: set<nat>)
    requires Accounts(s, parked)
    ensures Distinct(s.running) && forall u :: u in s.running ==> u < |s.count|
  {
    hide Sum, Column, FinishedCount, Roster;
  }

  lemma OnlyOne(running: seq<nat>, t: nat)
    requires Distinct(running) && t in running
    ensures running == [t] <==> forall u :: u in running ==> u == t
  {
    if forall u :: u in running ==> u == t {
      assert running[0] in running;
      if |running| > 1 {
        assert running[0] != running[1] && running[1] in running;
      }
    }
  }

  lemma FinishIs(w: World, p: Picks)
    requires Shaped(w.s) && w.cur < |w.s.count|
    ensures Turn(w, Finish(p)) == AfterFinish(MarkFinished(w.s, w.cur), w.parked, w.cur, p)
    ensures AtChoice(w, Finish(p)) == MarkFinished(w.s, w.cur)
  {
  }

  lemma FinishFinds(w: World, p: Picks)
    requires Good(w) && Shaped(w.s) && InRange(AtChoice(w, Finish(p)), p)
    ensures Turn(w, Finish(p)) == Nobody <==> StrandsPick(w, p)
  {
    var (s, t) := (w.s, w.cur);
    var m := MarkFinished(s, t);
    FinishIs(w, p);
    hide Accounts, Turn, AfterFinish, MarkFinished, AtChoice, Marked, FreedBy, Shaped;
    MarkedIs(s, w.parked, t);
    MarkedRows(s, t, m);
    MarkedIdle(s, w.parked, t, m);
    AfterFinishFinds(m, w.parked, t, p);
    if p.timed < |s.timed| {
      PickedCount(s, w.parked, t, m, s.timed[p.timed]);
    }
  }

  lemma MarkedRows(s: Sched, t: nat, m: Sched)
    requires Shaped(s) && t < |s.count| && Marked(s, m, t)
    ensures Shaped(m) && m.state[t] == Finished && m.timed == s.timed && |m.count| == |m.prio| == |s.count| == |s.prio|
    ensures forall y :: 0 <= y < |s.count| ==> |m.prio[y]| == |s.prio[y]| == |s.count|
    ensures forall y :: 0 <= y < |s.count| && y != t ==> m.prio[y] == s.prio[y]
    ensures forall u :: 0 <= u < |s.count| ==> m.prio[t][u] == 0
  {
  }

  /** A timed waiter could be woken unless somebody else's yield entry blocks it. */
  lemma PickedCount(s: Sched, parked: set<nat>, t: nat, m: Sched, x: nat)
    requires Accounts(s, parked) && Accounts(m, parked) && Shaped(s) && t < |s.count| && Marked(s, m, t) && x in s.timed
    ensures x < |s.count| == |m.count|
    ensures m.count[x] != 1 <==> exists y :: 0 <= y < |s.count| && y != t && s.prio[y][x] > 0
  {
    hide Accounts, Base, Ext, Marked, Column, Shaped;
    MarkedRows(s, t, m);
    TimedExt(s, parked, x);
    TimedExt(m, parked, x);
    BaseOf(m, parked);
    CountIs(m, Ext(m, parked), x);
    ColumnPositive(m.prio, x);
  }

  lemma ColumnPositive(prio: seq<seq<nat>>, t: nat)
    ensures Column(prio, t) > 0 <==> exists y :: 0 <= y < |prio| && t < |prio[y]| && prio[y][t] > 0
  {
    if exists y :: 0 <= y < |prio| && t < |prio[y]| && prio[y][t] > 0 {
      var y :| 0 <= y < |prio| && t < |prio[y]| && prio[y][t] > 0;
      ColumnHas(prio, y, t);
    } else {
      ColumnOfZeros(prio, t);
    }
  }

  /** Main theorem: in every reachable state, whatever the current thread does, schedule_impl finds a thread to
      run, or the iteration is over or a deadlock is reported, with one exception, exactly: a thread finishes in a
      StrandsPick state. */
  lemma NobodyExactly(n: nat, d: nat, first: nat, acts: seq<Act>, w: World, act: Act)
    requires Reached(n, d, first, acts, w) && Shaped(w.s) && w.cur < |w.s.count|
    requires act.Park? || act.Finish? ==> InRange(AtChoice(w, act), act.p)
    ensures Turn(w, act) == Nobody <==> act.Finish? && StrandsPick(w, act.p)
  {
    Always(n, d, first, acts, w);
    hide Reached, StrandsPick, Good, AtChoice, InRange;
    match act
    case Yield(rounds, p) =>
      hide Turn;
      YieldFinds(w, rounds, p);
    case Park(timed, spurious, p) =>
      hide Turn;
      ParkFinds(w, timed, spurious, p);
    case Finish(p) =>
      hide Turn;
      FinishFinds(w, p);
    case Wake(_) =>
    case Create =>
  }

  lemma UnluckyStrands()
    ensures Shaped(Unlucky(2).s) && Unlucky(2).cur < |Unlucky(2).s.count| && StrandsPick(Unlucky(2), Picks(0, 0, 0))
  {
    var s := Unlucky(2).s;
    assert s.prio[2][1] == 1 && s.timed[0] == 1;
    forall u: nat
      ensures !FreedBy(s, 0, u)
    {
    }
  }

  /** The exception is reached: two threads park, the second with a timeout, and the third finishes. The only one
      left that could run is the timed waiter, which by its yield still waits for the thread parked before it. */
  lemma NobodyToRun()
    ensures exists acts, w :: FindsNobody(acts, w)
  {
    var acts := TwoParks();
    UnluckyStrands();
    var (w, p) := (Unlucky(2), Picks(0, 0, 0));
    hide Reached, Turn, Unlucky, Shaped, StrandsPick, AtChoice;
    NobodyExactly(3, 0, 2, acts, w, Finish(p));
    assert FindsNobody(acts, w);
  }

  // ---- how long a yield lasts

  function Less(p: nat): nat {
    if p > 0 then p - 1 else 0
  }

  /** Up to thread i, whoever t blocks has waited for t once more; nothing else about yields has changed. */
  ghost predicate Credited(s: Sched, r: Sched, t: nat, i: nat)
    requires Shaped(s) && t < |s.count|
  {
    && Shaped(r) && |r.count| == |s.count|
    && (forall y :: 0 <= y < |s.count| && y != t ==> r.prio[y] == s.prio[y] && r.since[y] == s.since[y])
    && (forall x :: 0 <= x < i && x < |s.count| ==>
          r.prio[t][x] == Less(s.prio[t][x]) && r.since[t][x] == s.since[t][x] + 1)
    && (forall x :: i <= x < |s.count| ==> r.prio[t][x] == s.prio[t][x] && r.since[t][x] == s.since[t][x])
  }

  lemma CreditedOne(s: Sched, ext: seq<int>, t: nat, i: nat)
    requires Base(s, ext) && NonNegative(ext) && t < |s.count| && i < |s.count|
    ensures Shaped(s)
    ensures var r := CreditOne(s, t, i);
            && Shaped(r) && |r.count| == |s.count|
            && (forall y :: 0 <= y < |s.count| && y != t ==> r.prio[y] == s.prio[y] && r.since[y] == s.since[y])
            && (forall x :: 0 <= x < |s.count| && x != i ==>
                  r.prio[t][x] == s.prio[t][x] && r.since[t][x] == s.since[t][x])
            && r.prio[t][i] == Less(s.prio[t][i]) && r.since[t][i] == s.since[t][i] + 1
  {
    ShapeOf(s, ext);
    hide Base;
  }

  lemma BaseKept(s: Sched, ext: seq<int>, m: Sched)
    requires Kept(s, ext, m)
    ensures Base(m, ext)
  {
    hide Base;
  }

  lemma CreditedMore(s: Sched, ext: seq<int>, t: nat, i: nat, was: Sched)
    requires Base(s, ext) && NonNegative(ext) && Shaped(s) && Shaped(was) && t < |was.count| == |s.count|
             && i < |s.count|
    requires Credited(was, s, t, i)
    ensures Credited(was, CreditOne(s, t, i), t, i + 1)
  {
    CreditedOne(s, ext, t, i);
    hide Base, CreditOne, NonNegative;
  }

  lemma {:induction false} CreditedAll(s: Sched, ext: seq<int>, t: nat, i: nat, was: Sched)
    requires Base(s, ext) && NonNegative(ext) && Shaped(was) && t < |was.count| == |s.count| && i <= |s.count|
    requires Credited(was, s, t, i)
    ensures Shaped(s) && Credited(was, Credit(s, t, i), t, |s.count|)
    decreases |s.count| - i
  {
    hide Base, CreditOne, NonNegative, Kept, Credited, Shaped;
    ShapeOf(s, ext);
    if i < |s.count| {
      var m := CreditOne(s, t, i);
      CreditOneKeeps(s, ext, t, i);
      BaseKept(s, ext, m);
      CreditedMore(s, ext, t, i, was);
      CreditedAll(m, ext, t, i + 1, was);
    }
  }

  /** Whoever was blocked by a last round of t alone runs again. */
  lemma LastRoundFrees(s: Sched, ext: seq<int>, r: Sched, t: nat, x: nat)
    requires Base(s, ext) && NonNegative(ext) && Base(r, ext) && Shaped(s) && t < |s.count|
             && Credited(s, r, t, |s.count|)
    requires x < |s.count| && s.count[x] == 1 && s.prio[t][x] == 1
    ensures x in r.running
  {
    CountIs(s, ext, x);
    CountIs(r, ext, x);
    ColumnHas(s.prio, t, x);
    assert r.prio == s.prio[t := r.prio[t]];
    ColumnPut(s.prio, t, r.prio[t], x);
    hide Column, Sum, NonNegative;
  }

  /** Main theorem: the accounting of schedule_impl for a current thread t that does not yield: whoever t blocks by
      a yield has one round less to wait, and runs if that was the last reason; other threads' entries stay. */
  lemma RoundsCountDown(s: Sched, parked: set<nat>, t: nat)
    requires Accounts(s, parked) && t < |s.count| && s.state[t] == Running
    ensures Shaped(s) && Shaped(Account(s, t, 0)) && |Account(s, t, 0).count| == |s.count|
    ensures var r := Account(s, t, 0);
            && (forall x :: 0 <= x < |s.count| ==> r.prio[t][x] == Less(s.prio[t][x]))
            && (forall y :: 0 <= y < |s.count| && y != t ==> r.prio[y] == s.prio[y] && r.since[y] == s.since[y])
            && (s.total[t] > 0 ==> forall x :: 0 <= x < |s.count| ==> r.since[t][x] == s.since[t][x] + 1)
            && (forall x :: 0 <= x < |s.count| && s.count[x] == 1 && s.prio[t][x] == 1 ==> x in r.running)
  {
    var ext := Ext(s, parked);
    BaseOf(s, parked);
    ShapeOf(s, ext);
    ExtPositive(s, parked);
    assert s.total[t] == Sum(s.prio[t]);
    SumZero(s.prio[t]);
    hide Accounts, Base, Credit, Ext, Sum, NonNegative, Shaped;
    if s.total[t] != 0 {
      CreditKeeps(s, ext, t, 0);
      CreditedStarts(s, t);
      CreditedAll(s, ext, t, 0, s);
      var r := Credit(s, t, 0);
      forall x | 0 <= x < |s.count| && s.count[x] == 1 && s.prio[t][x] == 1
        ensures x in r.running
      {
        LastRoundFrees(s, ext, r, t, x);
      }
    }
  }

  lemma CreditedStarts(s: Sched, t: nat)
    requires Shaped(s) && t < |s.count|
    ensures Credited(s, s, t, 0)
  {
  }

  /** Thread c has to wait for y: y has not finished and has been scheduled fewer times than asked since c last
      yielded. */
  predicate WaitsFor(s: Sched, c: nat, rounds: nat, y: nat) {
    && y < |s.since| && c < |s.since[y]| && y < |s.state|
    && y != c && s.since[y][c] < rounds && s.state[y] != Finished
  }

  /** What thread c's own row is after it has yielded: as before, or empty, because c has been blocked. */
  predicate OwnRow(s: Sched, r: Sched, c: nat) {
    c < |s.prio| && c < |r.prio| && (r.prio[c] == s.prio[c] || RowZero(r, c, |s.prio|))
  }

  /** Up to thread i, c has entered what it has to wait for; nothing else about yields has changed but c's own row. */
  ghost predicate Entered(s: Sched, r: Sched, c: nat, rounds: nat, i: nat)
    requires Shaped(s) && c < |s.count|
  {
    && Shaped(r) && |r.count| == |s.count| && |r.state| == |s.state|
    && (forall y :: 0 <= y < |s.state| ==> (r.state[y] == Finished <==> s.state[y] == Finished))
    && (forall y, x :: 0 <= y < |s.count| && 0 <= x < |s.count| && y != c && x != c ==>
          r.prio[y][x] == s.prio[y][x] && r.since[y][x] == s.since[y][x])
    && (forall y :: 0 <= y < i && y < |s.count| && y != c ==>
          r.prio[y][c] == (if WaitsFor(s, c, rounds, y) then rounds else 0) && r.since[y][c] == 0)
    && (forall y :: i <= y < |s.count| ==> r.prio[y][c] == s.prio[y][c] && r.since[y][c] == s.since[y][c])
    && OwnRow(s, r, c)
  }

  /** One round of the loop of yield_priority. */
  ghost predicate EnteredOne(s: Sched, r: Sched, c: nat, rounds: nat, i: nat)
    requires Shaped(s) && c < |s.count| && i < |s.count|
  {
    && Shaped(r) && |r.count| == |s.count| && |r.state| == |s.state|
    && (forall y :: 0 <= y < |s.state| ==> (r.state[y] == Finished <==> s.state[y] == Finished))
    && (forall y, x :: 0 <= y < |s.count| && 0 <= x < |s.count| && y != c && !(y == i && x == c) ==>
          r.prio[y][x] == s.prio[y][x] && r.since[y][x] == s.since[y][x])
    && (forall x :: 0 <= x < |s.count| && !(i == c && x == c) ==> r.since[c][x] == s.since[c][x])
    && (i != c ==> r.prio[i][c] == if WaitsFor(s, c, rounds, i) then rounds else 0)
    && r.since[i][c] == 0 && OwnRow(s, r, c)
  }

  /** Blocking c for a yield enters the rounds, and empties c's own row if c has been running. */
  ghost predicate BlockedFor(s: Sched, r: Sched, c: nat, rounds: nat, i: nat)
    requires Shaped(s) && c < |s.count| && i < |s.count|
  {
    && SameLists(s, r) && r.since == s.since && |r.prio| == |s.prio| && OwnRow(s, r, c)
    && r.prio[i] == Put(s.prio[i], c, rounds)
    && forall y :: 0 <= y < |s.count| && y != c && y != i ==> r.prio[y] == s.prio[y]
  }

  lemma BlockedRows(s: Sched, p: Sched, r: Sched, c: nat, rounds: nat, i: nat)
    requires Shaped(s) && c < |s.count| && i < |s.count| && c != i && p == PutPrio(s, i, c, rounds, s.total[i] + rounds)
    requires SameLists(p, r) && r.since == p.since && |r.prio| == |p.prio|
    requires r.prio == p.prio
             || (RowZero(r, c, |p.count|) && forall y :: 0 <= y < |p.count| && y != c ==> r.prio[y] == p.prio[y])
    ensures BlockedFor(s, r, c, rounds, i)
  {
  }

  lemma YieldBlocksRows(s: Sched, ext: seq<int>, c: nat, rounds: nat, i: nat)
    requires Base(s, ext) && NonNegative(ext) && c < |s.count| && i < |s.count| && rounds > 0 && Shaped(s)
    requires s.state[c] != Finished && s.state[i] != Finished && c != i && s.prio[i][c] == 0
    ensures BlockedFor(s, Block(PutPrio(s, i, c, rounds, s.total[i] + rounds), c), c, rounds, i)
  {
    hide Base, Block, NonNegative, BlockedFor, Rows, Counts, RowZero, SameLists;
    PrioStep(s, ext, i, c, rounds);
    var p := PutPrio(s, i, c, rounds, s.total[i] + rounds);
    var less := ext[c := ext[c] - 1];
    assert less[c := less[c] + 1] == ext;
    assert p.state == s.state;
    hide PutPrio, Shaped;
    BlockKeeps(p, less, c);
    ShapeOf(Block(p, c), ext);
    SizesOf(Block(p, c));
    SizesOf(p);
    BlockedRows(s, p, Block(p, c), c, rounds, i);
  }

  lemma SizesOf(s: Sched)
    requires Shaped(s)
    ensures |s.count| == |s.state| == |s.prio| == |s.since| == |s.total|
  {
  }

  lemma EnteredBlocked(s: Sched, m: Sched, c: nat, rounds: nat, i: nat)
    requires Shaped(s) && Shaped(m) && c < |s.count| && i < |s.count| && |m.count| == |s.count|
    requires WaitsFor(s, c, rounds, i) && BlockedFor(s, m, c, rounds, i)
    ensures EnteredOne(s, PutSince(m, i, c, 0), c, rounds, i)
  {
  }

  lemma EnteredNot(s: Sched, c: nat, rounds: nat, i: nat)
    requires Shaped(s) && c < |s.count| && i < |s.count| && s.prio[i][c] == 0 && !WaitsFor(s, c, rounds, i)
    ensures EnteredOne(s, PutSince(s, i, c, 0), c, rounds, i)
  {
  }

  lemma WaitsForIs(s: Sched, c: nat, rounds: nat, i: nat)
    requires Shaped(s) && c < |s.count| && i < |s.count|
    ensures WaitsFor(s, c, rounds, i) <==> c != i && s.since[i][c] < rounds && s.state[i] != Finished
  {
  }

  lemma EnterOne(s: Sched, ext: seq<int>, c: nat, rounds: nat, i: nat)
    requires Base(s, ext) && NonNegative(ext) && c < |s.count| && i < |s.count| && rounds > 0
    requires s.state[c] != Finished && ColumnZero(s, c, i)
    ensures Shaped(s) && EnteredOne(s, YieldOne(s, c, rounds, i), c, rounds, i)
  {
    ShapeOf(s, ext);
    assert s.prio[i][c] == 0;
    WaitsForIs(s, c, rounds, i);
    hide Base, NonNegative, Block, ColumnZero, PutPrio, PutSince, EnteredOne, WaitsFor, BlockedFor, Shaped;
    if WaitsFor(s, c, rounds, i) {
      YieldBlocksRows(s, ext, c, rounds, i);
      EnteredBlocked(s, YieldBlock(s, c, rounds, i), c, rounds, i);
    } else {
      EnteredNot(s, c, rounds, i);
    }
  }

  /** One round more. */
  lemma EnterMore(was: Sched, s: Sched, r: Sched, c: nat, rounds: nat, i: nat)
    requires Shaped(was) && c < |was.count| == |s.count| && i < |was.count| && was.prio[c][c] == 0
    requires Entered(was, s, c, rounds, i) && EnteredOne(s, r, c, rounds, i) && r.prio[c][c] == 0
    ensures Entered(was, r, c, rounds, i + 1)
  {
    assert WaitsFor(was, c, rounds, i) <==> WaitsFor(s, c, rounds, i);
  }

  lemma StillUnfinished(s: Sched, ext: seq<int>, m: Sched, c: nat)
    requires Kept(s, ext, m) && Shaped(s) && c < |s.count| && s.state[c] != Finished
    ensures Base(m, ext) && Shaped(m) && |m.count| == |s.count| && m.state[c] != Finished
  {
    hide Counts, Lists, Rows;
  }

  lemma {:induction false} EnterAll(s: Sched, ext: seq<int>, c: nat, rounds: nat, i: nat, was: Sched)
    requires Base(s, ext) && NonNegative(ext) && Shaped(was) && c < |was.count| == |s.count| && i <= |s.count|
             && rounds > 0
    requires s.state[c] != Finished && ColumnZero(s, c, i) && was.prio[c][c] == 0
    requires Entered(was, s, c, rounds, i)
    ensures Shaped(s) && Entered(was, YieldFrom(s, c, rounds, i), c, rounds, |s.count|)
    decreases |s.count| - i
  {
    hide Base, YieldOne, NonNegative, Entered, EnteredOne, ColumnZero, Shaped, Kept, SameLists;
    ShapeOf(s, ext);
    if i < |s.count| {
      YieldOneKeeps(s, ext, c, rounds, i);
      EnterOne(s, ext, c, rounds, i);
      var m := YieldOne(s, c, rounds, i);
      StillUnfinished(s, ext, m, c);
      DiagonalZero(m, ext, c);
      EnterMore(was, s, m, c, rounds, i);
      EnterAll(m, ext, c, rounds, i + 1, was);
    }
  }

  /** Nobody waits for anybody, c apart. */
  ghost predicate FreedBut(r: Sched, c: nat) {
    forall y, x :: 0 <= y < |r.prio| && 0 <= x < |r.prio[y]| && x != c ==> r.prio[y][x] == 0
  }

  /** What others wait for, c apart, is as before. */
  ghost predicate RowsStay(s: Sched, r: Sched, c: nat) {
    && |r.prio| == |s.prio|
    && forall y, x :: 0 <= y < |s.prio| && y != c && 0 <= x < |s.prio[y]| && x < |r.prio[y]| && x != c ==>
         r.prio[y][x] == s.prio[y][x]
  }

  /** Main theorem: what yield_priority stores. If somebody still runs after the entries have been made, c waits
      `rounds` rounds for each thread that has not finished and has been scheduled fewer times than that since c
      last yielded, and for nobody else, and starts to count anew; if nobody does, all yields are given up. */
  lemma YieldStores(s: Sched, ext: seq<int>, c: nat, rounds: nat)
    requires Base(s, ext) && NonNegative(ext) && c < |s.count| && rounds > 0
    requires s.state[c] != Finished && ColumnZero(s, c, 0)
    ensures Shaped(s) && s.prio[c][c] == 0
    ensures var m, r := YieldFrom(s, c, rounds, 0), YieldPriority(s, c, rounds);
            && Entered(s, m, c, rounds, |s.count|)
            && (if m.running != [] then r == m else forall y: nat :: y < |s.count| ==> RowZero(r, y, |s.count|))
  {
    ShapeOf(s, ext);
    DiagonalZero(s, ext, c);
    EnterStarts(s, c, rounds);
    hide Base, YieldFrom, PurgeAll, ColumnZero, Entered, RowZero, NonNegative, Shaped;
    EnterAll(s, ext, c, rounds, 0, s);
    YieldFromKeeps(s, ext, c, rounds, 0);
    var m := YieldFrom(s, c, rounds, 0);
    if m.running == [] {
      PurgeAllZero(m, ext, 0);
    }
  }

  lemma EnterStarts(s: Sched, c: nat, rounds: nat)
    requires Shaped(s) && c < |s.count|
    ensures Entered(s, s, c, rounds, 0)
  {
  }

  lemma ZeroIsFreed(r: Sched, c: nat)
    requires Shaped(r) && forall y: nat :: y < |r.count| ==> RowZero(r, y, |r.count|)
    ensures FreedBut(r, c)
  {
    forall y, x | 0 <= y < |r.prio| && 0 <= x < |r.prio[y]|
      ensures r.prio[y][x] == 0
    {
      assert RowZero(r, y, |r.count|);
    }
  }

  lemma EnteredStays(s: Sched, r: Sched, c: nat, rounds: nat)
    requires Shaped(s) && c < |s.count| && Entered(s, r, c, rounds, |s.count|)
    ensures RowsStay(s, r, c) && OwnRow(s, r, c)
  {
  }

  /** After yield_priority, with what c does not wait for. */
  lemma YieldPriorityRows(s: Sched, ext: seq<int>, c: nat, rounds: nat)
    requires Base(s, ext) && NonNegative(ext) && c < |s.count| && rounds > 0
    requires s.state[c] != Finished && ColumnZero(s, c, 0)
    ensures Shaped(s)
    ensures var r := YieldPriority(s, c, rounds); (RowsStay(s, r, c) && OwnRow(s, r, c)) || FreedBut(r, c)
  {
    YieldStores(s, ext, c, rounds);
    var m, r := YieldFrom(s, c, rounds, 0), YieldPriority(s, c, rounds);
    ShapeOf(s, ext);
    hide Base, YieldFrom, YieldPriority, Entered, RowsStay, OwnRow, FreedBut, RowZero, ColumnZero, Shaped, NonNegative;
    if m.running != [] {
      EnteredStays(s, m, c, rounds);
    } else {
      ZeroIsFreed(r, c);
    }
  }

  lemma RowsStayTwice(s: Sched, m: Sched, r: Sched, c: nat)
    requires Shaped(s) && Shaped(m) && Shaped(r) && |m.count| == |s.count| == |r.count|
    requires RowsStay(s, m, c) && RowsStay(m, r, c)
    ensures RowsStay(s, r, c)
  {
  }

  /** The entries of c: one round less, or given up. */
  ghost predicate OwnLess(s: Sched, r: Sched, c: nat) {
    && c < |s.prio| && c < |r.prio| && |r.prio[c]| == |s.prio[c]|
    && forall x :: 0 <= x < |s.prio[c]| ==> r.prio[c][x] == Less(s.prio[c][x]) || r.prio[c][x] == 0
  }

  lemma CreditRows(s: Sched, m: Sched, r: Sched, c: nat)
    requires Shaped(s) && Shaped(m) && Shaped(r) && c < |s.count| == |m.count| == |r.count|
    requires forall x :: 0 <= x < |s.count| ==> m.prio[c][x] == Less(s.prio[c][x])
    requires forall y :: 0 <= y < |s.count| && y != c ==> m.prio[y] == s.prio[y]
    requires RowsStay(m, r, c) && OwnRow(m, r, c)
    ensures RowsStay(s, r, c) && OwnLess(s, r, c)
  {
  }

  /** What the accounting of a thread that yields does to the entries. */
  lemma AccountRows(s: Sched, parked: set<nat>, c: nat, rounds: nat)
    requires Accounts(s, parked) && c < |s.count| && s.state[c] == Running && rounds > 0
    ensures Shaped(s)
    ensures var r := Account(s, c, rounds); (RowsStay(s, r, c) && OwnLess(s, r, c)) || FreedBut(r, c)
  {
    var ext := Ext(s, parked);
    BaseOf(s, parked);
    ShapeOf(s, ext);
    ExtPositive(s, parked);
    RunningIsFree(s, parked, c);
    RoundsCountDown(s, parked, c);
    var m := Account(s, c, 0);
    assert Account(s, c, rounds) == YieldPriority(m, c, rounds);
    assert m == if s.total[c] != 0 then Credit(s, c, 0) else s;
    DiagonalZero(s, ext, c);
    KeptSelf(s, ext, c, c);
    hide Accounts, Account, Credit, YieldPriority, Base, Ext, RowsStay, OwnLess, FreedBut, OwnRow, NonNegative,
         ColumnZero, Shaped;
    if s.total[c] != 0 {
      CreditCount(s, c, 0);
      CreditKeeps(s, ext, c, 0);
    }
    assert Kept(s, ext, m) && m.count[c] == s.count[c] && m.state[c] == s.state[c];
    NoYieldBlocks(m, ext, c);
    YieldPriorityRows(m, ext, c, rounds);
    var r := YieldPriority(m, c, rounds);
    if RowsStay(m, r, c) && OwnRow(m, r, c) {
      CreditRows(s, m, r, c);
    }
  }

  lemma PurgeKeepsRows(s: Sched, ext: seq<int>, c: nat)
    requires Base(s, ext) && NonNegative(ext) && c < |s.count|
    ensures Shaped(s) && FreedBut(PurgeAll(s, 0), c)
  {
    ShapeOf(s, ext);
    hide Base, PurgeAll, RowZero, FreedBut, NonNegative, Shaped;
    PurgeAllZero(s, ext, 0);
    ZeroIsFreed(PurgeAll(s, 0), c);
  }

  lemma FreedStays(s: Sched, r: Sched, c: nat)
    requires Shaped(s) && Shaped(r) && c < |s.count| == |r.count| && FreedBut(s, c)
    requires (RowsStay(s, r, c) && OwnLess(s, r, c)) || FreedBut(r, c)
    ensures FreedBut(r, c)
  {
  }

  /** Row c is empty. */
  predicate Empty(r: Sched, c: nat) {
    c < |r.prio| && forall x :: 0 <= x < |r.prio[c]| ==> r.prio[c][x] == 0
  }

  lemma BlockRows(s: Sched, ext: seq<int>, c: nat)
    requires Base(s, ext) && NonNegative(ext) && c < |s.count| && s.state[c] == Running
    ensures Shaped(s) && RowsStay(s, Block(s, c), c) && Empty(Block(s, c), c)
  {
    ShapeOf(s, ext);
    assert s.count[c] == 0;
    OneMoreReason(ext, c);
    hide Base, Block, NonNegative, SameLists, Shaped;
    BlockKeeps(s, ext, c);
    ShapeOf(Block(s, c), ext[c := ext[c] + 1]);
    SizesOf(s);
    SizesOf(Block(s, c));
    EmptyRow(s, Block(s, c), c);
  }

  lemma EmptyRow(s: Sched, r: Sched, c: nat)
    requires Shaped(s) && Shaped(r) && c < |s.count| == |r.count| && RowZero(r, c, |s.count|)
    requires forall y :: 0 <= y < |s.count| && y != c ==> r.prio[y] == s.prio[y]
    ensures RowsStay(s, r, c) && Empty(r, c)
  {
  }

  lemma EmptyStays(s: Sched, r: Sched, c: nat)
    requires Shaped(s) && Shaped(r) && c < |s.count| == |r.count| && Empty(s, c) && r.prio[c][c] == 0
    requires OwnLess(s, r, c) || FreedBut(r, c)
    ensures Empty(r, c)
  {
  }

  lemma ParkBlocks(s: Sched, parked: set<nat>, c: nat, timed: bool, spurious: bool)
    requires Accounts(s, parked) && c < |s.count| && s.state[c] == Running
    ensures Shaped(s)
    ensures var b := Block(ParkLists(s, c, timed, spurious), c); RowsStay(s, b, c) && Empty(b, c)
  {
    var (ext, m) := (Ext(s, parked), ParkLists(s, c, timed, spurious));
    BaseOf(s, parked);
    ShapeOf(s, ext);
    ExtPositive(s, parked);
    ListsSame(s, ext, m);
    assert m.prio == s.prio;
    hide Accounts, Base, Block, Ext, ParkLists, Shaped, NonNegative, Empty;
    BlockRows(m, ext, c);
  }

  /** What parking does to the entries. */
  lemma ParkRows(w: World, timed: bool, spurious: bool, p: Picks)
    requires Good(w) && Shaped(w.s)
    ensures var r := AtChoice(w, Park(timed, spurious, p));
            Empty(r, w.cur) && (RowsStay(w.s, r, w.cur) || FreedBut(r, w.cur))
  {
    var (s, c, parked) := (w.s, w.cur, w.parked + {w.cur});
    var b := Block(ParkLists(s, c, timed, spurious), c);
    var q := TryPurge(b);
    assert AtChoice(w, Park(timed, spurious, p)) == Account(q, c, 1);
    hide Accounts, Account, Block, TryPurge, Ext, Shaped, ParkLists, RowsStay, FreedBut, Empty, AtChoice, SameLists;
    ParkBlocks(s, w.parked, c, timed, spurious);
    ParkKeeps(s, w.parked, c, timed, spurious);
    ParkCounts(s, w.parked, c, timed, spurious);
    ParkedCount(b, parked, c);
    TryPurgeKeeps(b, parked);
    QuietRows(b, parked, c);
    StillParked(b, q, c);
    ParkedYields(s, b, q, parked, c);
  }

  lemma StillParked(b: Sched, q: Sched, c: nat)
    requires SameLists(b, q) && c < |b.state| && b.state[c] == Blocked
    ensures c < |q.state| && q.state[c] != Finished
  {
  }

  lemma QuietRows(b: Sched, parked: set<nat>, c: nat)
    requires Accounts(b, parked) && Shaped(b) && c < |b.count|
    ensures var q := TryPurge(b); q == b || FreedBut(q, c)
  {
    BaseOf(b, parked);
    ExtPositive(b, parked);
    hide Accounts, Base, PurgeAll, FreedBut, Ext, NonNegative;
    if Stuck(b) {
      PurgeKeepsRows(b, Ext(b, parked), c);
    }
  }

  lemma ParkedYields(s: Sched, b: Sched, q: Sched, parked: set<nat>, c: nat)
    requires Shaped(s) && Shaped(b) && c < |s.count| == |b.count| && RowsStay(s, b, c) && Empty(b, c)
    requires Accounts(q, parked) && Shaped(q) && |q.count| == |b.count| && (q == b || FreedBut(q, c))
    requires q.count[c] == Ext(q, parked)[c] && q.state[c] != Finished
    ensures Empty(Account(q, c, 1), c) && (RowsStay(s, Account(q, c, 1), c) || FreedBut(Account(q, c, 1), c))
  {
    var ext := Ext(q, parked);
    BaseOf(q, parked);
    DiagonalZero(q, ext, c);
    QuietOwn(q, b, c);
    var r := Account(q, c, 1);
    assert r == YieldPriority(q, c, 1) by {
      EmptyTotal(q, ext, c);
      hide YieldPriority;
    }
    ExtPositive(q, parked);
    hide Accounts, Account, Base, Ext, RowsStay, OwnRow, OwnLess, FreedBut, Empty, YieldPriority, NonNegative,
         ColumnZero, Shaped;
    NoYieldBlocks(q, ext, c);
    YieldPriorityKeeps(q, ext, c, 1);
    YieldPriorityRows(q, ext, c, 1);
    ShapeOf(r, ext);
    DiagonalZero(r, ext, c);
    ParkedEnd(s, b, q, r, c);
  }

  lemma ParkedEnd(s: Sched, b: Sched, q: Sched, r: Sched, c: nat)
    requires Shaped(s) && Shaped(b) && Shaped(q) && Shaped(r) && c < |s.count| == |b.count| == |q.count| == |r.count|
    requires RowsStay(s, b, c) && Empty(q, c) && (q == b || FreedBut(q, c)) && r.prio[c][c] == 0
    requires (RowsStay(q, r, c) && OwnRow(q, r, c)) || FreedBut(r, c)
    ensures Empty(r, c) && (RowsStay(s, r, c) || FreedBut(r, c))
  {
  }

  lemma QuietOwn(q: Sched, b: Sched, c: nat)
    requires Shaped(b) && Shaped(q) && c < |b.count| == |q.count| && Empty(b, c) && (q == b || FreedBut(q, c))
             && q.prio[c][c] == 0
    ensures Empty(q, c)
  {
  }

  lemma EmptyTotal(q: Sched, ext: seq<int>, c: nat)
    requires Base(q, ext) && c < |q.count| && Empty(q, c)
    ensures q.total[c] == 0
  {
    SumZero(q.prio[c]);
    hide Sum, Column;
  }

  /** What finishing does to the entries. */
  lemma FinishRows(w: World, p: Picks)
    requires Good(w) && Shaped(w.s)
    ensures var r := Settle(MarkFinished(w.s, w.cur)).0;
            Empty(r, w.cur) && (RowsStay(w.s, r, w.cur) || FreedBut(r, w.cur))
  {
    var (s, c) := (w.s, w.cur);
    var m := MarkFinished(s, c);
    MarkedIs(s, w.parked, c);
    MarkedMeans(s, m, c);
    hide Accounts, MarkFinished, Marked, Shaped, RowsStay, FreedBut, Empty, Settle;
    SettleRows(m, w.parked, c);
    FinishedRow(Settle(m).0, w.parked, c);
    RowsEnd(s, m, Settle(m).0, c);
  }

  lemma MarkedMeans(s: Sched, m: Sched, c: nat)
    requires Shaped(s) && c < |s.count| && Marked(s, m, c)
    ensures RowsStay(s, m, c) && Shaped(m) && |m.count| == |s.count| && m.state[c] == Finished
  {
  }

  lemma RowsEnd(s: Sched, m: Sched, r: Sched, c: nat)
    requires RowsStay(s, m, c) && (r.prio == m.prio || FreedBut(r, c))
    ensures RowsStay(s, r, c) || FreedBut(r, c)
  {
  }

  lemma {:induction false} StartAllRows(s: Sched)
    requires Shaped(s)
    ensures StartAllDynamic(s).prio == s.prio
    decreases |s.dynamic|
  {
    if s.dynamic != [] && s.dynamic[|s.dynamic| - 1] < |s.count| {
      StartDynamicLess(s);
      StartOneRows(s);
      hide StartDynamic, Shaped;
      StartAllRows(StartDynamic(s));
    }
  }

  lemma StartOneRows(s: Sched)
    requires Shaped(s)
    ensures StartDynamic(s).prio == s.prio
  {
  }

  /** The retry loop leaves the entries alone, or gives up all of them. */
  lemma SettleRows(m: Sched, parked: set<nat>, c: nat)
    requires Accounts(m, parked) && Shaped(m) && c < |m.count| && m.state[c] == Finished
    ensures Accounts(Settle(m).0, parked) && Settle(m).0.state[c] == Finished
    ensures Settle(m).0.prio == m.prio || FreedBut(Settle(m).0, c)
  {
    hide Accounts, TryPurge, StartAllDynamic, Shaped, SameLists, FreedBut;
    SettleKeeps(m, parked);
    SettleFinished(m, parked, c);
    TryPurgeKeeps(m, parked);
    QuietRows(m, parked, c);
    var q := TryPurge(m);
    StartAllKeeps(q, parked);
    StartAllRows(q);
    FreedSame(q, StartAllDynamic(q), c);
    TryPurgeKeeps(StartAllDynamic(q), parked);
    QuietRows(StartAllDynamic(q), parked, c);
  }

  lemma FreedSame(s: Sched, r: Sched, c: nat)
    requires r.prio == s.prio
    ensures FreedBut(s, c) ==> FreedBut(r, c)
  {
  }

  lemma FinishedRow(r: Sched, parked: set<nat>, c: nat)
    requires Accounts(r, parked) && c < |r.count| && c < |r.state| && r.state[c] == Finished
    ensures Empty(r, c)
  {
    BaseOf(r, parked);
    FinishedTotal(r, Ext(r, parked), c);
    SumZero(r.prio[c]);
    hide Accounts, Base, Sum;
  }

  lemma FinishedTotal(r: Sched, ext: seq<int>, c: nat)
    requires Base(r, ext) && c < |r.count| && c < |r.state| && r.state[c] == Finished
    ensures c < |r.prio| && Sum(r.prio[c]) == 0
  {
    hide Sum, Column;
  }

  /** Choosing a thread leaves the entries alone. */
  lemma SelectRows(s: Sched, parked: set<nat>, p: Picks, w: World)
    requires Accounts(s, parked) && Shaped(s) && Go(s, parked, p) == Runs(w)
    ensures w.s.prio == s.prio && w.s.since == s.since
  {
    if Wakes(s, s.timed, p.timed) {
      UnparkRows(s, s.timed[p.timed]);
    } else if s.running != [] && Wakes(s, s.spurious, p.spurious) {
      UnparkRows(s, s.spurious[p.spurious]);
    }
    hide Accounts, Unpark, Shaped;
  }

  lemma UnparkRows(s: Sched, t: nat)
    requires Shaped(s) && t < |s.count|
    ensures Unpark(s, t).prio == s.prio && Unpark(s, t).since == s.since
  {
  }

  // ---- over runs

  /** The step calls schedule_impl for thread y. */
  predicate Schedules(w: World, act: Act, y: nat) {
    w.cur == y && (act.Yield? || act.Park? || act.Finish?)
  }

  /** Thread y may give up what others wait for it: it parks, finishes or yields. */
  predicate GivesUp(w: World, act: Act, y: nat) {
    w.cur == y && (act.Park? || act.Finish? || (act.Yield? && act.rounds > 0))
  }

  /** All yields are given up, but for those that the current thread, which gives something up itself, has just made. */
  ghost predicate FreesAll(w: World, act: Act, r: World) {
    GivesUp(w, act, w.cur) && FreedBut(r.s, w.cur)
  }

  /** What one step does to the rounds that t waits for y. */
  ghost predicate EntryLaw(w: World, act: Act, r: World, y: nat, t: nat)
    requires y < |w.s.prio| && t < |w.s.prio[y]| && y < |r.s.prio| && t < |r.s.prio[y]|
  {
    var was, now := w.s.prio[y][t], r.s.prio[y][t];
    || (FreesAll(w, act, r) && now == 0)
    || (!Schedules(w, act, y) && now == was)
    || (Schedules(w, act, y) && !GivesUp(w, act, y) && now == Less(was))
    || (GivesUp(w, act, y) && (now == Less(was) || now == 0))
  }

  /** Somebody who waits for a yield is not the current thread. */
  lemma WaiterIsNotCurrent(w: World, y: nat, t: nat)
    requires Good(w) && y < |w.s.prio| && t < |w.s.prio[y]| && w.s.prio[y][t] > 0
    ensures t != w.cur && t !in w.s.running && y < |w.s.count| && t < |w.s.count|
  {
    BaseOf(w.s, w.parked);
    ShapeOf(w.s, Ext(w.s, w.parked));
    ColumnHas(w.s.prio, y, t);
    AccountsMean(w.s, w.parked, t);
    hide Accounts, Column;
  }

  lemma EntryAfterYield(w: World, act: Act, r: World, y: nat, t: nat)
    requires Shaped(w.s) && Shaped(r.s) && w.cur < |w.s.count| == |r.s.count| && y < |w.s.count| && t < |w.s.count|
    requires GivesUp(w, act, w.cur) && t != w.cur
    requires (RowsStay(w.s, r.s, w.cur) && OwnLess(w.s, r.s, w.cur)) || FreedBut(r.s, w.cur)
    ensures EntryLaw(w, act, r, y, t)
  {
  }

  lemma EntryAfterRound(w: World, act: Act, r: World, y: nat, t: nat)
    requires Shaped(w.s) && Shaped(r.s) && w.cur < |w.s.count| == |r.s.count| && y < |w.s.count| && t < |w.s.count|
    requires act.Yield? && act.rounds == 0
    requires forall x :: 0 <= x < |w.s.count| ==> r.s.prio[w.cur][x] == Less(w.s.prio[w.cur][x])
    requires forall z :: 0 <= z < |w.s.count| && z != w.cur ==> r.s.prio[z] == w.s.prio[z]
    ensures EntryLaw(w, act, r, y, t)
  {
  }

  lemma EntryAfterStop(w: World, act: Act, r: World, y: nat, t: nat)
    requires Shaped(w.s) && Shaped(r.s) && w.cur < |w.s.count| == |r.s.count| && y < |w.s.count| && t < |w.s.count|
    requires GivesUp(w, act, w.cur) && t != w.cur
    requires Empty(r.s, w.cur) && (RowsStay(w.s, r.s, w.cur) || FreedBut(r.s, w.cur))
    ensures EntryLaw(w, act, r, y, t)
  {
  }

  lemma SameRows(s: Sched, a: Sched, r: Sched, c: nat)
    requires Shaped(a) && Shaped(r) && r.prio == a.prio
    ensures |r.count| == |a.count| && (RowsStay(s, a, c) <==> RowsStay(s, r, c))
            && (OwnLess(s, a, c) <==> OwnLess(s, r, c))
    ensures (FreedBut(a, c) <==> FreedBut(r, c)) && (Empty(a, c) <==> Empty(r, c))
  {
  }

  lemma RunsShaped(w: World, act: Act, r: World)
    requires Good(w) && Shaped(w.s) && Turn(w, act) == Runs(r)
    ensures Good(r) && Shaped(r.s)
  {
    hide Turn, Accounts;
    TurnKeeps(w, act);
    GoodShape(r);
  }

  lemma GoodShape(r: World)
    requires Good(r)
    ensures Shaped(r.s)
  {
    BaseOf(r.s, r.parked);
    ShapeOf(r.s, Ext(r.s, r.parked));
    hide Accounts;
  }

  lemma YieldEntry(w: World, rounds: nat, p: Picks, r: World, y: nat, t: nat)
    requires Good(w) && Shaped(w.s) && Turn(w, Yield(rounds, p)) == Runs(r)
    requires y < |w.s.count| && t < |w.s.count| && t != w.cur
    ensures y < |r.s.prio| && t < |r.s.prio[y]| && EntryLaw(w, Yield(rounds, p), r, y, t)
  {
    var (s, c) := (w.s, w.cur);
    var a := Account(s, c, rounds);
    assert Turn(w, Yield(rounds, p)) == Go(a, w.parked, p);
    RunsShaped(w, Yield(rounds, p), r);
    RunningIsFree(s, w.parked, c);
    hide Accounts, Account, Turn, Go, Ext, Shaped, EntryLaw, RowsStay, OwnLess, FreedBut, Empty;
    AccountKeeps(s, w.parked, c, rounds);
    SelectRows(a, w.parked, p, r);
    ShapeOfAccounts(a, w.parked);
    SameRows(s, a, r.s, c);
    if rounds == 0 {
      RoundsCountDown(s, w.parked, c);
      EntryAfterRound(w, Yield(rounds, p), r, y, t);
    } else {
      AccountRows(s, w.parked, c, rounds);
      EntryAfterYield(w, Yield(rounds, p), r, y, t);
    }
    SizesOf(r.s);
  }

  lemma ShapeOfAccounts(a: Sched, parked: set<nat>)
    requires Accounts(a, parked)
    ensures Shaped(a)
  {
    BaseOf(a, parked);
    ShapeOf(a, Ext(a, parked));
  }

  lemma ParkEntry(w: World, timed: bool, spurious: bool, p: Picks, r: World, y: nat, t: nat)
    requires Good(w) && Shaped(w.s) && Turn(w, Park(timed, spurious, p)) == Runs(r)
    requires y < |w.s.count| && t < |w.s.count| && t != w.cur
    ensures y < |r.s.prio| && t < |r.s.prio[y]| && EntryLaw(w, Park(timed, spurious, p), r, y, t)
  {
    var act := Park(timed, spurious, p);
    RunsShaped(w, act, r);
    assert w.cur < |w.s.count|;
    hide *;
    ParkRows(w, timed, spurious, p);
    ParkChoice(w, timed, spurious, p, r);
    SameRows(w.s, AtChoice(w, act), r.s, w.cur);
    ParkGivesUp(w, timed, spurious, p);
    EntryAfterStop(w, act, r, y, t);
    SizesOf(r.s);
    RowSizes(r.s, y);
  }

  lemma ParkGivesUp(w: World, timed: bool, spurious: bool, p: Picks)
    ensures GivesUp(w, Park(timed, spurious, p), w.cur)
  {
  }

  lemma ParkChoice(w: World, timed: bool, spurious: bool, p: Picks, r: World)
    requires Good(w) && Shaped(w.s) && Turn(w, Park(timed, spurious, p)) == Runs(r)
    ensures var a := AtChoice(w, Park(timed, spurious, p));
            Shaped(a) && |a.count| == |w.s.count| && r.s.prio == a.prio && r.s.since == a.since
  {
    var (s, c, parked) := (w.s, w.cur, w.parked + {w.cur});
    var b := Block(ParkLists(s, c, timed, spurious), c);
    var a := Account(TryPurge(b), c, 1);
    assert Go(a, parked, p) == Runs(r) && a == AtChoice(w, Park(timed, spurious, p));
    hide Accounts, Account, Block, TryPurge, Ext, Turn, Go, ParkLists, AtChoice;
    ParkKeeps(s, w.parked, c, timed, spurious);
    ParkCounts(s, w.parked, c, timed, spurious);
    ParkedCount(b, parked, c);
    TryPurgeKeeps(b, parked);
    AccountKeeps(TryPurge(b), parked, c, 1);
    SelectRows(a, parked, p, r);
  }

  lemma FinishEntry(w: World, p: Picks, r: World, y: nat, t: nat)
    requires Good(w) && Shaped(w.s) && Turn(w, Finish(p)) == Runs(r)
    requires y < |w.s.count| && t < |w.s.count| && t != w.cur
    ensures y < |r.s.prio| && t < |r.s.prio[y]| && EntryLaw(w, Finish(p), r, y, t)
  {
    var m := MarkFinished(w.s, w.cur);
    var q := Settle(m).0;
    FinishIs(w, p);
    RunsShaped(w, Finish(p), r);
    MarkedIs(w.s, w.parked, w.cur);
    MarkedMeans(w.s, m, w.cur);
    FinishRuns(m, w.parked, w.cur, p, r);
    assert Shaped(q) && |q.count| == |w.s.count|;
    hide *;
    FinishRows(w, p);
    SameRows(w.s, q, r.s, w.cur);
    FinishGivesUp(w, p);
    EntryAfterStop(w, Finish(p), r, y, t);
    SizesOf(r.s);
    RowSizes(r.s, y);
  }

  lemma RowSizes(s: Sched, y: nat)
    requires Shaped(s) && y < |s.count|
    ensures |s.prio[y]| == |s.count|
  {
  }

  lemma FinishGivesUp(w: World, p: Picks)
    ensures GivesUp(w, Finish(p), w.cur)
  {
  }

  lemma FinishRuns(m: Sched, parked: set<nat>, c: nat, p: Picks, r: World)
    requires Accounts(m, parked) && Shaped(m) && c < |m.count| && m.state[c] == Finished
             && AfterFinish(m, parked, c, p) == Runs(r)
    ensures r.s.prio == Settle(m).0.prio && r.s.since == Settle(m).0.since
  {
    var q := Settle(m).0;
    hide Settle, Account, Go, Accounts, Shaped;
    SettleRows(m, parked, c);
    FinishedAccount(q, parked, c);
    SelectRows(q, parked, p, r);
  }

  lemma EntryStep(w: World, act: Act, r: World, y: nat, t: nat)
    requires Good(w) && Shaped(w.s) && Turn(w, act) == Runs(r)
    requires y < |w.s.prio| && t < |w.s.prio[y]| && w.s.prio[y][t] > 0
    ensures y < |r.s.prio| && t < |r.s.prio[y]| && EntryLaw(w, act, r, y, t)
  {
    WaiterIsNotCurrent(w, y, t);
    match act
    case Yield(rounds, p) =>
      hide Good, Turn, EntryLaw, Shaped;
      YieldEntry(w, rounds, p, r, y, t);
    case Park(timed, spurious, p) =>
      hide Good, Turn, EntryLaw, Shaped;
      ParkEntry(w, timed, spurious, p, r, y, t);
    case Finish(p) =>
      hide Good, Turn, EntryLaw, Shaped;
      FinishEntry(w, p, r, y, t);
    case Wake(x) =>
      if x in w.parked && x < |w.s.count| {
        UnparkRows(w.s, x);
      }
      hide Good, Unpark, Shaped, FreesAll;
    case Create =>
      StartOneRows(w.s);
      hide Good, StartDynamic, Shaped, FreesAll;
  }

  /** A part of a run: the worlds before, between and after the acts. */
  ghost predicate Walk(ws: seq<World>, acts: seq<Act>) {
    && |ws| == |acts| + 1 && Good(ws[0])
    && forall i :: 0 <= i < |acts| ==>
         Shaped(ws[i].s) && ws[i].cur < |ws[i].s.count| && Turn(ws[i], acts[i]) == Runs(ws[i + 1])
  }

  lemma {:induction false} WalkGood(ws: seq<World>, acts: seq<Act>, i: nat)
    requires Walk(ws, acts) && i < |ws|
    ensures Good(ws[i]) && Shaped(ws[i].s)
  {
    hide Good, Turn, Shaped;
    if i > 0 {
      assert Turn(ws[i - 1], acts[i - 1]) == Runs(ws[i]);
      hide Walk;
      WalkGood(ws, acts, i - 1);
      RunsShaped(ws[i - 1], acts[i - 1], ws[i]);
    }
    GoodShape(ws[i]);
  }

  /** How often schedule_impl is called for thread y in the first k steps. */
  function Rounds(ws: seq<World>, acts: seq<Act>, y: nat, k: nat): nat
    requires k <= |acts| < |ws|
  {
    if k == 0 then 0 else Rounds(ws, acts, y, k - 1) + if Schedules(ws[k - 1], acts[k - 1], y) then 1 else 0
  }

  /** How many rounds t still waits for y. */
  function Waiting(w: World, y: nat, t: nat): nat {
    if y < |w.s.prio| && t < |w.s.prio[y]| then w.s.prio[y][t] else 0
  }

  lemma WaitingStep(ws: seq<World>, acts: seq<Act>, k: nat, y: nat, t: nat)
    requires Walk(ws, acts) && k < |acts| && Waiting(ws[k], y, t) > 0
    ensures Waiting(ws[k + 1], y, t) <= Waiting(ws[k], y, t)
    ensures Schedules(ws[k], acts[k], y) ==> Waiting(ws[k + 1], y, t) < Waiting(ws[k], y, t)
    ensures !GivesUp(ws[k], acts[k], y) && !FreesAll(ws[k], acts[k], ws[k + 1]) ==>
              Waiting(ws[k + 1], y, t) == Waiting(ws[k], y, t) - if Schedules(ws[k], acts[k], y) then 1 else 0
    ensures t !in ws[k].s.running
  {
    WalkGood(ws, acts, k);
    assert Turn(ws[k], acts[k]) == Runs(ws[k + 1]);
    hide Good, Walk, Shaped, Turn, FreesAll;
    WaiterIsNotCurrent(ws[k], y, t);
    EntryStep(ws[k], acts[k], ws[k + 1], y, t);
  }

  lemma RoundsStep(ws: seq<World>, acts: seq<Act>, y: nat, k: nat)
    requires k < |acts| < |ws|
    ensures Rounds(ws, acts, y, 0) == 0
    ensures Rounds(ws, acts, y, k + 1) == Rounds(ws, acts, y, k) + if Schedules(ws[k], acts[k], y) then 1 else 0
  {
  }

  ghost predicate StillWaits(ws: seq<World>, y: nat, t: nat, k: nat) {
    forall j :: 0 <= j <= k && j < |ws| ==> Waiting(ws[j], y, t) > 0
  }

  lemma {:induction false} WaitingBelow(ws: seq<World>, acts: seq<Act>, k: nat, y: nat, t: nat)
    requires |ws| == |acts| + 1 && Walk(ws, acts) && k <= |acts| && StillWaits(ws, y, t, k)
    ensures Waiting(ws[k], y, t) + Rounds(ws, acts, y, k) <= Waiting(ws[0], y, t)
  {
    hide Walk, Waiting, Schedules, GivesUp, FreesAll;
    if k > 0 {
      assert StillWaits(ws, y, t, k - 1) && Waiting(ws[k - 1], y, t) > 0;
      hide StillWaits;
      RoundsStep(ws, acts, y, k - 1);
      hide Rounds;
      WaitingStep(ws, acts, k - 1, y, t);
      WaitingBelow(ws, acts, k - 1, y, t);
    }
  }

  /** Main theorem: a yield ends. In every part of a run, once schedule_impl has been called for y as often as t
      had rounds to wait for y, t is off y's row. */
  lemma YieldEnds(n: nat, d: nat, first: nat, before: seq<Act>, ws: seq<World>, acts: seq<Act>, y: nat, t: nat)
    requires |ws| == |acts| + 1 && Reached(n, d, first, before, ws[0])
    requires forall i :: 0 <= i < |acts| ==>
               Shaped(ws[i].s) && ws[i].cur < |ws[i].s.count| && Turn(ws[i], acts[i]) == Runs(ws[i + 1])
    requires Rounds(ws, acts, y, |acts|) >= Waiting(ws[0], y, t)
    ensures exists j :: 0 <= j <= |acts| && Waiting(ws[j], y, t) == 0
  {
    Always(n, d, first, before, ws[0]);
    assert Walk(ws, acts);
    hide Reached, Walk, Turn, Good;
    if StillWaits(ws, y, t, |acts|) {
      assert Waiting(ws[|acts|], y, t) > 0;
      WaitingBelow(ws, acts, |acts|, y, t);
    }
  }

  /** In the first k steps y neither parks nor finishes nor yields itself, and no purge frees everybody. */
  ghost predicate NothingGivenUp(ws: seq<World>, acts: seq<Act>, y: nat, k: nat)
    requires |ws| == |acts| + 1
  {
    forall i :: 0 <= i < k && i < |acts| ==> !GivesUp(ws[i], acts[i], y) && !FreesAll(ws[i], acts[i], ws[i + 1])
  }

  /** Main theorem: and not before. While y does not park, finish or yield itself, and no purge frees everybody, t
      waits for y exactly as many rounds as it had to, less the times that schedule_impl has been called for y;
      until they are used up it does not run. */
  lemma YieldLasts(n: nat, d: nat, first: nat, before: seq<Act>, ws: seq<World>, acts: seq<Act>, y: nat, t: nat)
    requires |ws| == |acts| + 1 && Reached(n, d, first, before, ws[0])
    requires forall i :: 0 <= i < |acts| ==>
               Shaped(ws[i].s) && ws[i].cur < |ws[i].s.count| && Turn(ws[i], acts[i]) == Runs(ws[i + 1])
    requires NothingGivenUp(ws, acts, y, |acts|)
    requires |acts| > 0 ==> Rounds(ws, acts, y, |acts| - 1) < Waiting(ws[0], y, t)
    ensures Waiting(ws[|acts|], y, t) == Waiting(ws[0], y, t) - Rounds(ws, acts, y, |acts|)
    ensures Waiting(ws[|acts|], y, t) > 0 ==> t !in ws[|acts|].s.running && ws[|acts|].cur != t
  {
    Always(n, d, first, before, ws[0]);
    assert Walk(ws, acts);
    hide Reached, Turn, Good, Shaped, Walk, NothingGivenUp, Rounds;
    LastsUpTo(ws, acts, |acts|, y, t);
    WalkGood(ws, acts, |acts|);
    if Waiting(ws[|acts|], y, t) > 0 {
      WaiterIsNotCurrent(ws[|acts|], y, t);
    }
  }

  lemma {:induction false} LastsUpTo(ws: seq<World>, acts: seq<Act>, k: nat, y: nat, t: nat)
    requires |ws| == |acts| + 1 && Walk(ws, acts) && k <= |acts| && NothingGivenUp(ws, acts, y, k)
    requires k > 0 ==> Rounds(ws, acts, y, k - 1) < Waiting(ws[0], y, t)
    ensures Waiting(ws[k], y, t) == Waiting(ws[0], y, t) - Rounds(ws, acts, y, k)
  {
    hide Walk, Waiting, Schedules, GivesUp, FreesAll;
    if k > 0 {
      assert NothingGivenUp(ws, acts, y, k - 1) && !GivesUp(ws[k - 1], acts[k - 1], y);
      assert !FreesAll(ws[k - 1], acts[k - 1], ws[k]);
      hide NothingGivenUp;
      if k > 1 {
        RoundsStep(ws, acts, y, k - 2);
      }
      RoundsStep(ws, acts, y, k - 1);
      hide Rounds;
      LastsUpTo(ws, acts, k - 1, y, t);
      WaitingStep(ws, acts, k - 1, y, t);
    }
  }

  /** Main theorem: what a yield enters, in every reachable state. When thread c yields for some rounds and
      somebody still runs without a purge, then c waits `rounds` rounds for exactly those others that have not
      finished and have been scheduled fewer times since c last yielded. */
  lemma YieldEnters(n: nat, d: nat, first: nat, acts: seq<Act>, w: World, rounds: nat, p: Picks, r: World, y: nat)
    requires Reached(n, d, first, acts, w) && Shaped(w.s) && w.cur < |w.s.count| && rounds > 0
    requires Turn(w, Yield(rounds, p)) == Runs(r) && y < |w.s.count| && y != w.cur
    requires YieldFrom(Account(w.s, w.cur, 0), w.cur, rounds, 0).running != []
    ensures Waiting(r, y, w.cur) == if WaitsFor(w.s, w.cur, rounds, y) then rounds else 0
  {
    Always(n, d, first, acts, w);
    hide Reached;
    var (s, c, ext) := (w.s, w.cur, Ext(w.s, w.parked));
    var m, a := Account(s, c, 0), Account(s, c, rounds);
    assert Turn(w, Yield(rounds, p)) == Go(a, w.parked, p);
    assert a == YieldPriority(m, c, rounds);
    RunningIsFree(s, w.parked, c);
    hide Turn, Go, Account, YieldPriority, YieldFrom, Accounts, Ext, WaitsFor;
    RunsShaped(w, Yield(rounds, p), r);
    AccountKeeps(s, w.parked, c, rounds);
    SelectRows(a, w.parked, p, r);
    RoundsCountDown(s, w.parked, c);
    BaseOf(s, w.parked);
    YieldStart(s, w.parked, c);
    YieldStores(m, ext, c, rounds);
    SameWaits(s, m, c, rounds, y);
    hide Base, Shaped;
    EnteredIs(m, YieldFrom(m, c, rounds, 0), c, rounds, y);
  }

  lemma YieldStart(s: Sched, parked: set<nat>, c: nat)
    requires Accounts(s, parked) && c < |s.count| && s.state[c] == Running
    ensures Shaped(s)
    ensures var m, ext := Account(s, c, 0), Ext(s, parked);
            && Base(m, ext) && NonNegative(ext) && |m.count| == |s.count| && m.state[c] == Running
            && ColumnZero(m, c, 0)
            && |m.state| == |s.state| && forall y :: 0 <= y < |s.state| ==>
              (m.state[y] == Finished <==> s.state[y] == Finished)
  {
    var (ext, m) := (Ext(s, parked), Account(s, c, 0));
    BaseOf(s, parked);
    ShapeOf(s, ext);
    ExtPositive(s, parked);
    RunningIsFree(s, parked, c);
    DiagonalZero(s, ext, c);
    KeptSelf(s, ext, c, c);
    assert m == if s.total[c] != 0 then Credit(s, c, 0) else s;
    hide Accounts, Credit, Account, Base, Ext, NonNegative, ColumnZero, Shaped;
    if s.total[c] != 0 {
      CreditCount(s, c, 0);
      CreditKeeps(s, ext, c, 0);
    }
    NoYieldBlocks(m, ext, c);
  }

  lemma SameWaits(s: Sched, m: Sched, c: nat, rounds: nat, y: nat)
    requires Shaped(s) && Shaped(m) && c < |s.count| == |m.count| && y < |s.count| && y != c && m.since[y] == s.since[y]
    requires m.state[y] == Finished <==> s.state[y] == Finished
    ensures WaitsFor(m, c, rounds, y) <==> WaitsFor(s, c, rounds, y)
  {
  }

  lemma EnteredIs(s: Sched, r: Sched, c: nat, rounds: nat, y: nat)
    requires Shaped(s) && c < |s.count| && y < |s.count| && y != c && Entered(s, r, c, rounds, |s.count|)
    ensures y < |r.prio| && c < |r.prio[y]| && r.prio[y][c] == if WaitsFor(s, c, rounds, y) then rounds else 0
  {
  }

  // ---- what the choice and the acts do

  /** Main theorem: exactly these choices are possible: a running thread; a timed waiter that no yield blocks; and,
      while somebody runs, a waiter that allows spurious wakeups and that no yield blocks. */
  lemma ChoicesExact(s: Sched, t: nat, woken: bool)
    requires Shaped(s)
    ensures (exists p :: Chooses(s, p, t, woken)) <==> MayChoose(s, t, woken)
  {
    hide Select, MayChoose;
    if p :| Chooses(s, p, t, woken) {
      ChosenIs(s, p, t, woken);
    }
    if MayChoose(s, t, woken) {
      var p := PicksFor(s, t, woken);
      assert Chooses(s, p, t, woken);
    }
  }

  predicate MayChoose(s: Sched, t: nat, woken: bool) {
    if !woken then t in s.running
    else t < |s.count| && s.count[t] == 1 && (t in s.timed || (s.running != [] && t in s.spurious))
  }

  lemma PicksFor(s: Sched, t: nat, woken: bool) returns (p: Picks)
    requires Shaped(s) && MayChoose(s, t, woken)
    ensures Chooses(s, p, t, woken)
  {
    hide Unpark;
    if !woken {
      var i :| 0 <= i < |s.running| && s.running[i] == t;
      p := Picks(|s.timed|, |s.spurious|, i);
    } else if t in s.timed {
      var i :| 0 <= i < |s.timed| && s.timed[i] == t;
      p := Picks(i, 0, 0);
    } else {
      var i :| 0 <= i < |s.spurious| && s.spurious[i] == t;
      p := Picks(|s.timed|, i, 0);
    }
  }

  predicate Chooses(s: Sched, p: Picks, t: nat, woken: bool)
    requires Shaped(s)
  {
    var c := Select(s, p);
    c.Chosen? && c.t == t && c.woken == woken
  }

  lemma ChosenIs(s: Sched, p: Picks, t: nat, woken: bool)
    requires Shaped(s) && Chooses(s, p, t, woken)
    ensures MayChoose(s, t, woken) && (!woken ==> Select(s, p).s == s)
  {
    hide Unpark;
  }

  /** The lists of s hold these. */
  ghost predicate ListsHold(s: Sched, parked: set<nat>, timed: set<nat>, spurious: set<nat>) {
    && (forall t: nat :: t in s.timed <==> t in parked && t in timed)
    && (forall t: nat :: t in s.spurious <==> t in parked && t in spurious)
  }

  lemma DropHolds(s: seq<nat>, t: nat)
    requires Distinct(s)
    ensures forall x: nat :: x in Drop(s, t) <==> x in s && x != t
  {
    if t in s {
      assert s[Index(s, t)] == t;
    }
  }

  lemma UnparkHolds(s: Sched, parked: set<nat>, t: nat, timed: set<nat>, spurious: set<nat>)
    requires Accounts(s, parked) && Shaped(s) && t < |s.count| && ListsHold(s, parked, timed, spurious)
    ensures ListsHold(Unpark(s, t), parked - {t}, timed, spurious)
  {
    DropHolds(s.timed, t);
    DropHolds(s.spurious, t);
    UnparkLists(s, t);
    hide Base, Drop, Unpark;
  }

  lemma UnparkLists(s: Sched, t: nat)
    requires Shaped(s) && t < |s.count|
    ensures Unpark(s, t).timed == Drop(s.timed, t) && Unpark(s, t).spurious == Drop(s.spurious, t)
    ensures Unpark(s, t).dynamic == s.dynamic && Unpark(s, t).finished == s.finished
  {
  }

  lemma GoHolds(s: Sched, parked: set<nat>, p: Picks, r: World, timed: set<nat>, spurious: set<nat>)
    requires Accounts(s, parked) && Shaped(s) && ListsHold(s, parked, timed, spurious) && Go(s, parked, p) == Runs(r)
    ensures ListsHold(r.s, r.parked, timed, spurious)
    ensures r.parked == parked || (r.cur in parked && r.parked == parked - {r.cur})
    ensures r.s.dynamic == s.dynamic && r.s.finished == s.finished
  {
    if Wakes(s, s.timed, p.timed) {
      WaiterIsParked(s, parked, p.timed);
      UnparkHolds(s, parked, s.timed[p.timed], timed, spurious);
      UnparkLists(s, s.timed[p.timed]);
    } else if s.running != [] && Wakes(s, s.spurious, p.spurious) {
      WaiterIsParked(s, parked, p.spurious);
      UnparkHolds(s, parked, s.spurious[p.spurious], timed, spurious);
      UnparkLists(s, s.spurious[p.spurious]);
    }
    hide Accounts, Unpark, Shaped, ListsHold;
  }

  lemma SameHolds(s: Sched, r: Sched, parked: set<nat>, timed: set<nat>, spurious: set<nat>)
    requires SameLists(s, r) && ListsHold(s, parked, timed, spurious)
    ensures ListsHold(r, parked, timed, spurious)
  {
  }

  function Elements(s: seq<nat>): set<nat> {
    set x | x in s
  }

  lemma HoldsItself(s: Sched, parked: set<nat>)
    requires Accounts(s, parked)
    ensures ListsHold(s, parked, Elements(s.timed), Elements(s.spurious))
  {
    hide Base;
  }

  lemma AccountLists(s: Sched, parked: set<nat>, t: nat, rounds: nat)
    requires Accounts(s, parked) && t < |s.count| && s.count[t] == Ext(s, parked)[t]
             && (rounds > 0 ==> s.state[t] != Finished)
    ensures Shaped(s) && SameLists(s, Account(s, t, rounds))
  {
    var ext := Ext(s, parked);
    BaseOf(s, parked);
    ShapeOf(s, ext);
    ExtPositive(s, parked);
    DiagonalZero(s, ext, t);
    KeptSelf(s, ext, t, t);
    hide Accounts, Base, Credit, YieldPriority, ColumnZero, Shaped, Ext, NonNegative, SameLists;
    var m := if s.total[t] != 0 then Credit(s, t, 0) else s;
    if s.total[t] != 0 {
      CreditCount(s, t, 0);
      CreditKeeps(s, ext, t, 0);
    }
    if rounds != 0 {
      NoYieldBlocks(m, ext, t);
      YieldPriorityKeeps(m, ext, t, rounds);
      KeptTwice(s, ext, m, ext, YieldPriority(m, t, rounds));
    }
  }

  /** What an act of the current thread means: who is parked afterwards, who of them may time out or wake
      spuriously, which threads have not been started, and how many have finished. */
  ghost predicate ActMeans(w: World, act: Act, r: World) {
    var c := w.cur;
    && ListsHold(r.s, r.parked, Elements(w.s.timed) + (if act.Park? && act.timed then {c} else {}),
                 Elements(w.s.spurious) + if act.Park? && act.spurious then {c} else {})
    && (match act
        case Yield(_, _) => r.parked == w.parked || (r.cur in w.parked && r.parked == w.parked - {r.cur})
        case Park(_, _, _) =>
          r.parked == w.parked + {c} || (r.cur in w.parked + {c} && r.parked == w.parked + {c} - {r.cur})
        case Finish(_) => r.parked == w.parked || (r.cur in w.parked && r.parked == w.parked - {r.cur})
        case Wake(t) => r.cur == c && r.parked == w.parked - {t}
        case Create => r.cur == c && r.parked == w.parked)
    && r.s.finished == w.s.finished + (if act.Finish? then 1 else 0)
    && (if act.Create? then w.s.dynamic != [] ==> r.s.dynamic == w.s.dynamic[..|w.s.dynamic| - 1]
        else r.s.dynamic == w.s.dynamic || (act.Finish? && r.s.dynamic == []))
  }

  lemma PlainMeans(w: World, act: Act, r: World)
    requires act.Yield? || act.Finish?
    requires ListsHold(r.s, r.parked, Elements(w.s.timed), Elements(w.s.spurious))
    requires r.parked == w.parked || (r.cur in w.parked && r.parked == w.parked - {r.cur})
    requires r.s.finished == w.s.finished + if act.Finish? then 1 else 0
    requires r.s.dynamic == w.s.dynamic || (act.Finish? && r.s.dynamic == [])
    ensures ActMeans(w, act, r)
  {
    hide ListsHold, Elements;
    assert Elements(w.s.timed) + {} == Elements(w.s.timed) && Elements(w.s.spurious) + {} == Elements(w.s.spurious);
  }

  lemma ParkIntro(w: World, act: Act, r: World)
    requires act.Park?
    requires ListsHold(r.s, r.parked, Elements(w.s.timed) + (if act.timed then {w.cur} else {}),
                       Elements(w.s.spurious) + if act.spurious then {w.cur} else {})
    requires var p := w.parked + {w.cur}; r.parked == p || (r.cur in p && r.parked == p - {r.cur})
    requires r.s.finished == w.s.finished && r.s.dynamic == w.s.dynamic
    ensures ActMeans(w, act, r)
  {
    hide ListsHold, Elements;
  }

  lemma YieldMeans(w: World, rounds: nat, p: Picks, r: World)
    requires Good(w) && Shaped(w.s) && Turn(w, Yield(rounds, p)) == Runs(r)
    ensures ActMeans(w, Yield(rounds, p), r)
  {
    var (s, c) := (w.s, w.cur);
    var a := Account(s, c, rounds);
    var (timed, spurious) := (Elements(s.timed), Elements(s.spurious));
    assert Turn(w, Yield(rounds, p)) == Go(a, w.parked, p);
    RunningIsFree(s, w.parked, c);
    hide Turn, Go, Account, Accounts, Ext, ListsHold, Shaped, Elements, ActMeans;
    AccountKeeps(s, w.parked, c, rounds);
    AccountLists(s, w.parked, c, rounds);
    HoldsItself(s, w.parked);
    ShapeOfAccounts(a, w.parked);
    SameHolds(s, a, w.parked, timed, spurious);
    GoHolds(a, w.parked, p, r, timed, spurious);
    hide SameLists;
    PlainMeans(w, Yield(rounds, p), r);
  }

  lemma ParkListsHold(s: Sched, parked: set<nat>, c: nat, timed: bool, spurious: bool)
    requires Accounts(s, parked) && Shaped(s)
    ensures ListsHold(ParkLists(s, c, timed, spurious), parked + {c}, Elements(s.timed) + (if timed then {c} else {}),
                      Elements(s.spurious) + if spurious then {c} else {})
  {
    hide Base;
  }

  /** The lists at the choice, after a park. */
  lemma ParkAtChoice(s: Sched, parked: set<nat>, c: nat, timed: bool, spurious: bool, more: set<nat>, may: set<nat>)
    requires Accounts(s, parked) && Shaped(s) && c < |s.count| && s.state[c] == Running
    requires ListsHold(ParkLists(s, c, timed, spurious), parked + {c}, more, may)
    ensures var a := Account(TryPurge(Block(ParkLists(s, c, timed, spurious), c)), c, 1);
            && Accounts(a, parked + {c}) && Shaped(a) && ListsHold(a, parked + {c}, more, may)
            && a.dynamic == s.dynamic && a.finished == s.finished
  {
    var m := ParkLists(s, c, timed, spurious);
    var b := Block(m, c);
    var q := TryPurge(b);
    assert m.dynamic == s.dynamic && m.finished == s.finished;
    hide Account, Accounts, Ext, ListsHold, Shaped, ParkLists, Block, TryPurge;
    ParkSame(s, parked, c, timed, spurious);
    ParkKeeps(s, parked, c, timed, spurious);
    ParkCounts(s, parked, c, timed, spurious);
    ParkedCount(b, parked + {c}, c);
    TryPurgeKeeps(b, parked + {c});
    StillParked(b, q, c);
    AccountKeeps(q, parked + {c}, c, 1);
    AccountLists(q, parked + {c}, c, 1);
    ShapeOfAccounts(Account(q, c, 1), parked + {c});
    SameHolds(m, b, parked + {c}, more, may);
    SameHolds(b, q, parked + {c}, more, may);
    SameHolds(q, Account(q, c, 1), parked + {c}, more, may);
  }

  lemma ParkTurnIs(w: World, timed: bool, spurious: bool, p: Picks, r: World)
    requires Shaped(w.s) && w.cur < |w.s.count| && Turn(w, Park(timed, spurious, p)) == Runs(r)
    ensures var a := Account(TryPurge(Block(ParkLists(w.s, w.cur, timed, spurious), w.cur)), w.cur, 1);
            Go(a, w.parked + {w.cur}, p) == Runs(r)
  {
    hide Go, Account, TryPurge, Block, ParkLists, Shaped;
  }

  lemma GoodMeansRunning(w: World)
    requires Good(w)
    ensures Accounts(w.s, w.parked) && w.cur < |w.s.count| == |w.s.state| && w.s.state[w.cur] == Running
  {
    hide Accounts;
  }

  lemma ParkMeans(w: World, timed: bool, spurious: bool, p: Picks, r: World)
    requires Good(w) && Shaped(w.s) && Turn(w, Park(timed, spurious, p)) == Runs(r)
    ensures ActMeans(w, Park(timed, spurious, p), r)
  {
    hide *;
    GoodMeansRunning(w);
    ParkTurnIs(w, timed, spurious, p, r);
    var (s, c) := (w.s, w.cur);
    var more := Elements(s.timed) + if timed then {c} else {};
    var may := Elements(s.spurious) + if spurious then {c} else {};
    ParkListsHold(s, w.parked, c, timed, spurious);
    ParkAtChoice(s, w.parked, c, timed, spurious, more, may);
    var a := Account(TryPurge(Block(ParkLists(s, c, timed, spurious), c)), c, 1);
    GoHolds(a, w.parked + {c}, p, r, more, may);
    ParkIntro(w, Park(timed, spurious, p), r);
  }

  lemma ParkSame(s: Sched, parked: set<nat>, c: nat, timed: bool, spurious: bool)
    requires Accounts(s, parked) && c < |s.count| && s.state[c] == Running
    ensures Shaped(s) && SameLists(ParkLists(s, c, timed, spurious), Block(ParkLists(s, c, timed, spurious), c))
  {
    var (ext, m) := (Ext(s, parked), ParkLists(s, c, timed, spurious));
    BaseOf(s, parked);
    ShapeOf(s, ext);
    ExtPositive(s, parked);
    ListsSame(s, ext, m);
    OneMoreReason(ext, c);
    hide Accounts, Base, Block, Ext, ParkLists, NonNegative, SameLists;
    BlockKeeps(m, ext, c);
  }

  /** The retry loop changes no list but that of the threads to be started. */
  lemma SettleLists(m: Sched, parked: set<nat>)
    requires Accounts(m, parked) && Shaped(m)
    ensures var q := Settle(m).0;
            && q.timed == m.timed && q.spurious == m.spurious && q.finished == m.finished
            && (q.dynamic == m.dynamic || q.dynamic == [])
  {
    hide Accounts, TryPurge, StartAllDynamic, Shaped;
    TryPurgeKeeps(m, parked);
    var q := TryPurge(m);
    StartAllKeeps(q, parked);
    StartAllLists(q, parked);
    TryPurgeKeeps(StartAllDynamic(q), parked);
  }

  lemma {:induction false} StartAllLists(s: Sched, parked: set<nat>)
    requires Accounts(s, parked) && Shaped(s)
    ensures var r := StartAllDynamic(s);
            r.timed == s.timed && r.spurious == s.spurious && r.finished == s.finished && r.dynamic == []
    decreases |s.dynamic|
  {
    hide Accounts, StartDynamic;
    if s.dynamic != [] {
      StartDynamicKeeps(s, parked);
      StartDynamicIs(s);
      StartAllLists(StartDynamic(s), parked);
    }
  }

  lemma MarkedLists(s: Sched, parked: set<nat>, c: nat)
    requires Accounts(s, parked) && c < |s.count| && s.state[c] == Running
    ensures Shaped(s)
    ensures var m := MarkFinished(s, c);
            && m.timed == s.timed && m.spurious == s.spurious && m.dynamic == s.dynamic && m.finished == s.finished + 1
  {
    var ext := Ext(s, parked);
    BaseOf(s, parked);
    ShapeOf(s, ext);
    ExtPositive(s, parked);
    OneMoreReason(ext, c);
    hide Accounts, Base, Block, Ext, NonNegative;
    BlockKeeps(s, ext, c);
  }

  lemma ListsOnly(s: Sched, r: Sched, parked: set<nat>, timed: set<nat>, spurious: set<nat>)
    requires ListsHold(s, parked, timed, spurious) && r.timed == s.timed && r.spurious == s.spurious
    ensures ListsHold(r, parked, timed, spurious)
  {
  }

  lemma FinishIntro(w: World, p: Picks, r: World)
    requires ListsHold(r.s, r.parked, Elements(w.s.timed), Elements(w.s.spurious))
    requires r.parked == w.parked || (r.cur in w.parked && r.parked == w.parked - {r.cur})
    requires r.s.finished == w.s.finished + 1 && (r.s.dynamic == w.s.dynamic || r.s.dynamic == [])
    ensures ActMeans(w, Finish(p), r)
  {
    PlainMeans(w, Finish(p), r);
    hide ActMeans, ListsHold, Elements;
  }

  lemma FinishMeans(w: World, p: Picks, r: World)
    requires Good(w) && Shaped(w.s) && Turn(w, Finish(p)) == Runs(r)
    ensures ActMeans(w, Finish(p), r)
  {
    var (s, c) := (w.s, w.cur);
    var (timed, spurious) := (Elements(s.timed), Elements(s.spurious));
    var m := MarkFinished(s, c);
    FinishIs(w, p);
    MarkedIs(s, w.parked, c);
    MarkedMeans(s, m, c);
    MarkedLists(s, w.parked, c);
    HoldsItself(s, w.parked);
    hide *;
    FinishGoesOn(m, w.parked, c, p, r, timed, spurious, s);
    FinishIntro(w, p, r);
  }

  lemma FinishGoesOn(m: Sched, parked: set<nat>, c: nat, p: Picks, r: World, timed: set<nat>, spurious: set<nat>,
      s: Sched)
    requires Accounts(m, parked) && Shaped(m) && c < |m.count| && m.state[c] == Finished
             && AfterFinish(m, parked, c, p) == Runs(r)
    requires ListsHold(s, parked, timed, spurious) && m.timed == s.timed && m.spurious == s.spurious
    ensures ListsHold(r.s, r.parked, timed, spurious)
    ensures r.parked == parked || (r.cur in parked && r.parked == parked - {r.cur})
    ensures r.s.finished == m.finished && (r.s.dynamic == m.dynamic || r.s.dynamic == [])
  {
    var q := Settle(m).0;
    hide Settle, Account, Go, Accounts, Shaped, ListsHold;
    SettleRows(m, parked, c);
    SettleLists(m, parked);
    FinishedAccount(q, parked, c);
    ListsOnly(s, q, parked, timed, spurious);
    GoHolds(q, parked, p, r, timed, spurious);
  }

  lemma WakeMeans(w: World, t: nat, r: World)
    requires Good(w) && Shaped(w.s) && Turn(w, Wake(t)) == Runs(r)
    ensures ActMeans(w, Wake(t), r)
  {
    var (s, c) := (w.s, w.cur);
    var (timed, spurious) := (Elements(s.timed), Elements(s.spurious));
    HoldsItself(s, w.parked);
    assert timed + {} == timed && spurious + {} == spurious;
    BaseOf(s, w.parked);
    assert t in w.parked ==> t < |w.s.count|;
    if t in w.parked {
      UnparkHolds(s, w.parked, t, timed, spurious);
      UnparkLists(s, t);
    } else {
      assert w.parked - {t} == w.parked;
    }
    hide Accounts, ListsHold, Elements, Unpark, Shaped;
  }

  lemma CreateIs(w: World, r: World)
    requires Good(w) && Shaped(w.s) && Turn(w, Create) == Runs(r)
    ensures r == if w.s.dynamic == [] then w else w.(s := StartDynamic(w.s))
  {
    hide Good, StartDynamic;
  }

  lemma CreateIntro(w: World, r: World)
    requires ListsHold(r.s, r.parked, Elements(w.s.timed), Elements(w.s.spurious))
    requires r.cur == w.cur && r.parked == w.parked
    requires r.s.finished == w.s.finished
    requires w.s.dynamic != [] ==> r.s.dynamic == w.s.dynamic[..|w.s.dynamic| - 1]
    ensures ActMeans(w, Create, r)
  {
    hide ListsHold, Elements;
    assert Elements(w.s.timed) + {} == Elements(w.s.timed) && Elements(w.s.spurious) + {} == Elements(w.s.spurious);
  }

  lemma CreateMeans(w: World, r: World)
    requires Good(w) && Shaped(w.s) && Turn(w, Create) == Runs(r)
    ensures ActMeans(w, Create, r)
  {
    hide *;
    GoodMeansRunning(w);
    CreateIs(w, r);
    HoldsItself(w.s, w.parked);
    if w.s.dynamic != [] {
      StartDynamicKeeps(w.s, w.parked);
      StartDynamicIs(w.s);
      ListsOnly(w.s, StartDynamic(w.s), w.parked, Elements(w.s.timed), Elements(w.s.spurious));
      assert r.s.dynamic == w.s.dynamic[..|w.s.dynamic| - 1];
    }
    CreateIntro(w, r);
  }

  /** Main theorem: what each act means, in every reachable state. With BlockCountIs this says who runs afterwards:
      a thread that has been unparked, or started, has one reason less to be blocked. */
  lemma ActsMean(n: nat, d: nat, first: nat, acts: seq<Act>, w: World, act: Act, r: World)
    requires Reached(n, d, first, acts, w) && Shaped(w.s) && w.cur < |w.s.count| && Turn(w, act) == Runs(r)
    ensures ActMeans(w, act, r)
  {
    Always(n, d, first, acts, w);
    hide Reached, Good, Turn, ActMeans, Shaped;
    match act
    case Yield(rounds, p) => YieldMeans(w, rounds, p, r);
    case Park(timed, spurious, p) => ParkMeans(w, timed, spurious, p, r);
    case Finish(p) => FinishMeans(w, p, r);
    case Wake(t) => WakeMeans(w, t, r);
    case Create => CreateMeans(w, r);
  }

  // ---- deadlocks

  /** Nobody runs and nobody is timed, even after all yields have been given up, exactly if every thread is blocked
      for a reason other than a yield, and nobody is timed. */
  lemma StuckExactly(s: Sched, parked: set<nat>)
    requires Accounts(s, parked) && Shaped(s)
    ensures Stuck(s) && Stuck(TryPurge(s)) <==>
              s.timed == [] && forall x :: 0 <= x < |s.state| ==> Ext(s, parked)[x] > 0
  {
    var (ext, q) := (Ext(s, parked), TryPurge(s));
    BaseOf(s, parked);
    ExtPositive(s, parked);
    TryPurgeKeeps(s, parked);
    ShapeOf(s, ext);
    hide Accounts, Base, PurgeAll, Ext, Shaped, RowZero;
    if Stuck(s) {
      PurgeAllKeeps(s, ext, 0);
      PurgeAllZero(s, ext, 0);
      StuckAfter(q, ext);
    } else if s.timed == [] {
      RunningRuns(s, parked, 0);
      RunningIsFree(s, parked, s.running[0]);
    }
  }

  lemma StuckAfter(q: Sched, ext: seq<int>)
    requires Base(q, ext) && NonNegative(ext) && forall y: nat :: y < |q.count| ==> RowZero(q, y, |q.count|)
    ensures q.running == [] <==> forall x :: 0 <= x < |ext| ==> ext[x] > 0
  {
    ShapeOf(q, ext);
    forall x: nat | x < |q.count|
      ensures ext[x] == 0 <==> x in q.running
    {
      ZeroRuns(q, ext, x);
      FreeOnly(q, ext, x);
    }
    RunningBelow(q, ext);
    hide Base, RowZero;
    assert q.running != [] ==> q.running[0] in q.running;
  }

  lemma FreeOnly(q: Sched, ext: seq<int>, x: nat)
    requires Base(q, ext) && x < |q.count|
    ensures x in q.running ==> q.count[x] == 0
  {
    hide Sum, Column;
  }

  lemma RunningBelow(q: Sched, ext: seq<int>)
    requires Base(q, ext)
    ensures forall x: nat :: x in q.running ==> x < |q.count|
  {
    hide Sum, Column;
  }

  /** Every other thread is parked, not yet started or finished. */
  predicate OthersStopped(w: World) {
    forall x: nat :: x < |w.s.state| && x != w.cur ==> x in w.parked || x in w.s.dynamic || w.s.state[x] == Finished
  }

  predicate OthersFinished(w: World) {
    forall x: nat :: x < |w.s.state| && x != w.cur ==> w.s.state[x] == Finished
  }

  /** Nobody can ever run again: a thread parks without a timeout, or finishes while there is nobody left to be
      started, and every other thread is parked without a timeout, not yet started or finished, but not all have
      finished. */
  predicate NoWayOn(w: World, act: Act) {
    && w.s.timed == [] && OthersStopped(w)
    && (|| (act.Park? && !act.timed)
        || (act.Finish? && w.s.dynamic == [] && !OthersFinished(w)))
  }

  lemma ExtMeans(s: Sched, parked: set<nat>, x: nat)
    requires x < |s.state|
    ensures Ext(s, parked)[x] > 0 <==> x in parked || x in s.dynamic || s.state[x] == Finished
  {
  }

  lemma ParkDeadlock(w: World, timed: bool, spurious: bool, p: Picks)
    requires Good(w) && Shaped(w.s)
    ensures Turn(w, Park(timed, spurious, p)) == Deadlocked <==> NoWayOn(w, Park(timed, spurious, p))
  {
    hide Accounts, Account, Go, Block, TryPurge, Ext, ParkLists;
    var (s, c, parked) := (w.s, w.cur, w.parked + {w.cur});
    var b := Block(ParkLists(s, c, timed, spurious), c);
    ParkKeeps(s, w.parked, c, timed, spurious);
    ParkSame(s, w.parked, c, timed, spurious);
    ParkListsAre(s, c, timed, spurious);
    ShapeOfAccounts(b, parked);
    StuckExactly(b, parked);
    GoIsNotDeadlock(Account(TryPurge(b), c, 1), parked, p);
    forall x: nat | x < |s.state|
      ensures Ext(b, parked)[x] > 0 <==> x == c || x in w.parked || x in s.dynamic || s.state[x] == Finished
    {
      ExtMeans(b, parked, x);
    }
  }

  lemma ParkListsAre(s: Sched, c: nat, timed: bool, spurious: bool)
    requires Shaped(s)
    ensures var m := ParkLists(s, c, timed, spurious);
            && (m.timed == [] <==> s.timed == [] && !timed) && m.dynamic == s.dynamic && m.state == s.state
  {
  }

  lemma GoIsNotDeadlock(s: Sched, parked: set<nat>, p: Picks)
    requires Shaped(s)
    ensures Go(s, parked, p) != Deadlocked && !Go(s, parked, p).Over?
  {
    hide Unpark;
  }

  /** When all yields have been given up, somebody who has just been started runs. */
  lemma StartedRun(q: Sched, parked: set<nat>)
    requires Accounts(q, parked) && Shaped(q) && q.dynamic != []
             && forall y: nat :: y < |q.count| ==> RowZero(q, y, |q.count|)
    ensures StartAllDynamic(q).running != []
  {
    var d, x := StartAllDynamic(q), q.dynamic[|q.dynamic| - 1];
    LastDynamic(q, parked);
    LastIsFree(q, parked);
    StartAllKeeps(q, parked);
    StartAllLists(q, parked);
    StartAllRows(q);
    StartAllSame(q, parked);
    BaseOf(d, parked);
    hide Accounts, Base, StartAllDynamic, Ext;
    StartedFree(d, parked, x);
    forall y: nat | y < |d.count|
      ensures RowZero(d, y, |d.count|)
    {
      assert RowZero(q, y, |q.count|);
    }
    hide Shaped;
    ZeroRuns(d, Ext(d, parked), x);
  }

  lemma LastIsFree(q: Sched, parked: set<nat>)
    requires Accounts(q, parked) && q.dynamic != []
    ensures var x := q.dynamic[|q.dynamic| - 1]; x !in parked && x < |q.state| && q.state[x] != Finished
  {
    assert q.dynamic[|q.dynamic| - 1] in q.dynamic;
    hide Base;
  }

  lemma StartedFree(d: Sched, parked: set<nat>, x: nat)
    requires x < |d.state| && d.dynamic == [] && x !in parked && d.state[x] != Finished
    ensures Ext(d, parked)[x] == 0
  {
  }

  /** The retry loop reports a deadlock exactly if not all have finished, nobody is timed or left to be started,
      and every thread is blocked for a reason other than a yield. */
  lemma SettleExactly(m: Sched, parked: set<nat>)
    requires Accounts(m, parked) && Shaped(m)
    ensures Settle(m).1 == Last <==> m.finished == |m.count|
    ensures Settle(m).1 == Deadlock <==>
              && m.finished != |m.count| && m.timed == [] && m.dynamic == []
              && forall x :: 0 <= x < |m.state| ==> Ext(m, parked)[x] > 0
  {
    hide Accounts, PurgeAll, StartAllDynamic, Shaped, Ext, RowZero;
    StuckExactly(m, parked);
    TryPurgeKeeps(m, parked);
    var q := TryPurge(m);
    if m.finished != |m.count| && Stuck(m) && Stuck(q) && q.dynamic != [] {
      StuckRows(m, parked);
      StartedRun(q, parked);
      StartAllSame(q, parked);
      StartAllKeeps(q, parked);
      assert StartAllDynamic(q).finished != |StartAllDynamic(q).count|;
    }
  }

  lemma StuckRows(m: Sched, parked: set<nat>)
    requires Accounts(m, parked) && Shaped(m) && Stuck(m)
    ensures forall y: nat :: y < |TryPurge(m).count| ==> RowZero(TryPurge(m), y, |TryPurge(m).count|)
  {
    BaseOf(m, parked);
    ExtPositive(m, parked);
    hide Accounts, Base, PurgeAll, RowZero, Ext;
    PurgeAllZero(m, Ext(m, parked), 0);
  }

  /** What the marked state says about the state before. */
  lemma FinishVerdict(w: World, m: Sched, p: Picks)
    requires w.cur < |w.s.state| == |m.state| && m.timed == w.s.timed && m.dynamic == w.s.dynamic
    requires forall x: nat :: x < |m.state| ==> (m.state[x] == Finished <==> x == w.cur || w.s.state[x] == Finished)
    ensures (forall x: nat :: x < |m.state| ==> m.state[x] == Finished) <==> OthersFinished(w)
    ensures (forall x :: 0 <= x < |m.state| ==> Ext(m, w.parked)[x] > 0) <==> OthersStopped(w)
  {
    forall x: nat | x < |m.state|
      ensures Ext(m, w.parked)[x] > 0 <==> x == w.cur || x in w.parked || x in w.s.dynamic || w.s.state[x] == Finished
    {
      ExtMeans(m, w.parked, x);
    }
    hide Ext;
  }

  lemma FinishDeadlock(w: World, p: Picks)
    requires Good(w) && Shaped(w.s)
    ensures Turn(w, Finish(p)) == Deadlocked <==> NoWayOn(w, Finish(p))
    ensures Turn(w, Finish(p)).Over? <==> OthersFinished(w)
  {
    GoodMeansRunning(w);
    var (s, c) := (w.s, w.cur);
    var m := MarkFinished(s, c);
    FinishIs(w, p);
    MarkedIs(s, w.parked, c);
    MarkedLists(s, w.parked, c);
    MarkedStates(s, m, c);
    hide Good, Accounts, Turn, MarkFinished, Marked, Ext, Settle, Account, Go, Shaped, AfterFinish, OthersStopped,
         OthersFinished;
    SettleExactly(m, w.parked);
    AfterFinishIs(m, w.parked, c, p);
    CountFinished(m, w.parked);
    FinishVerdict(w, m, p);
  }

  lemma MarkedStates(s: Sched, m: Sched, c: nat)
    requires Shaped(s) && c < |s.count| && Marked(s, m, c)
    ensures Shaped(m) && |m.state| == |s.state| == |m.count| == |s.count|
    ensures forall x: nat :: x < |s.state| ==> (m.state[x] == Finished <==> x == c || s.state[x] == Finished)
  {
  }

  lemma AfterFinishIs(m: Sched, parked: set<nat>, c: nat, p: Picks)
    requires Shaped(m) && c < |m.count|
    ensures AfterFinish(m, parked, c, p) == Deadlocked <==> Settle(m).1 == Deadlock
    ensures AfterFinish(m, parked, c, p).Over? <==> Settle(m).1 == Last
  {
    GoIsNotDeadlock(Account(Settle(m).0, c, 0), parked, p);
    hide Settle, Account, Go;
  }

  lemma CountFinished(m: Sched, parked: set<nat>)
    requires Accounts(m, parked)
    ensures |m.state| == |m.count| && (m.finished == |m.count| <==>
              forall x: nat :: x < |m.state| ==> m.state[x] == Finished)
  {
    BaseOf(m, parked);
    ShapeOf(m, Ext(m, parked));
    AllFinishedStates(m.state);
    assert m.finished == FinishedCount(m.state);
    if forall x: nat :: x < |m.state| ==> m.state[x] == Finished {
      EveryoneFinished(m.state);
    }
    hide Accounts, FinishedCount, Base;
  }

  lemma {:induction false} EveryoneFinished(state: seq<ThreadState>)
    requires forall x: nat :: x < |state| ==> state[x] == Finished
    ensures FinishedCount(state) == |state|
  {
    if state != [] {
      EveryoneFinished(state[..|state| - 1]);
    }
  }

  /** Main theorem: deadlocks are reported exactly. In every reachable state an act ends in a deadlock if and only
      if nobody can ever run again; yields alone never make one, and threads not yet started are started before one
      is reported. The iteration is over exactly when the last thread finishes. */
  lemma DeadlockExactly(n: nat, d: nat, first: nat, acts: seq<Act>, w: World, act: Act)
    requires Reached(n, d, first, acts, w) && Shaped(w.s) && w.cur < |w.s.count|
    ensures Turn(w, act) == Deadlocked <==> NoWayOn(w, act)
    ensures Turn(w, act).Over? <==> act.Finish? && OthersFinished(w)
  {
    Always(n, d, first, acts, w);
    hide Reached, Good, NoWayOn, OthersFinished;
    match act
    case Yield(rounds, p) =>
      GoIsNotDeadlock(Account(w.s, w.cur, rounds), w.parked, p);
      YieldNoDeadlock(w, rounds, p);
      hide Account, Go;
    case Park(timed, spurious, p) =>
      ParkNotOver(w, timed, spurious, p);
      hide Turn;
      ParkDeadlock(w, timed, spurious, p);
    case Finish(p) =>
      hide Turn;
      FinishDeadlock(w, p);
    case Wake(t) => OtherNoDeadlock(w, act);
    case Create => OtherNoDeadlock(w, act);
  }

  lemma YieldNoDeadlock(w: World, rounds: nat, p: Picks)
    ensures !NoWayOn(w, Yield(rounds, p))
  {
  }

  lemma OtherNoDeadlock(w: World, act: Act)
    requires act.Wake? || act.Create?
    ensures !NoWayOn(w, act)
  {
  }

  lemma ParkNotOver(w: World, timed: bool, spurious: bool, p: Picks)
    requires Shaped(w.s) && w.cur < |w.s.count|
    ensures !Turn(w, Park(timed, spurious, p)).Over?
  {
    var r := Block(ParkLists(w.s, w.cur, timed, spurious), w.cur);
    GoIsNotDeadlock(Account(TryPurge(r), w.cur, 1), w.parked + {w.cur}, p);
    hide Account, Go, Block, TryPurge, ParkLists;
  }

  // ---- the object

  /** scheduler and tree_search_scheduler: the arrays as sequences, updated in place. `failed` stands for a failed
      RL_VERIFY. */
  class SchedulerImpl {
    const threads: nat
    var blockCount: seq<nat>
    var state: seq<ThreadState>
    var yieldPriority: seq<seq<nat>>
    var yieldSchedCount: seq<seq<nat>>
    var totalYieldPriority: seq<nat>
    var running: seq<nat>
    var timed: seq<nat>
    var spurious: seq<nat>
    var dynamic: seq<nat>
    var finished: nat
    var failed: bool

    ghost function View(): Sched
      reads this
    {
      Sched(blockCount, state, yieldPriority, yieldSchedCount, totalYieldPriority, running, timed, spurious, dynamic,
        finished, failed)
    }

    ghost predicate Valid()
      reads this
    {
      Shaped(View()) && |blockCount| == threads
    }

    constructor (threads: nat)
      ensures Valid() && View() == Fresh(threads) && this.threads == threads
    {
      this.threads := threads;
      blockCount, totalYieldPriority := seq(threads, t => 0), seq(threads, t => 0);
      state := seq(threads, t => Running);
      yieldPriority, yieldSchedCount := seq(threads, y => seq(threads, t => 0)),
        seq(threads, y => seq(threads, t => 0));
      running, timed, spurious, dynamic, finished, failed := Upto(threads), [], [], [], 0, false;
    }

    method UnblockThread(t: nat)
      requires Valid() && t < threads
      modifies this
      ensures Valid() && View() == Unblock(old(View()), t)
    {
      if state[t] != Blocked || blockCount[t] == 0 {
        failed := true;
        return;
      }
      blockCount := blockCount[t := blockCount[t] - 1];
      if blockCount[t] != 0 {
        return;
      }
      running := running + [t];
      state := state[t := Running];
    }

    method SetPriority(y: nat, t: nat, p: nat, total: nat)
      requires Valid() && y < threads && t < threads
      modifies this`yieldPriority, this`totalYieldPriority
      ensures Valid() && View() == PutPrio(old(View()), y, t, p, total)
    {
      yieldPriority := yieldPriority[y := Put(yieldPriority[y], t, p)];
      totalYieldPriority := totalYieldPriority[y := total];
    }

    method SetSchedCount(y: nat, t: nat, k: nat)
      requires Valid() && y < threads && t < threads
      modifies this`yieldSchedCount
      ensures Valid() && View() == PutSince(old(View()), y, t, k)
    {
      yieldSchedCount := yieldSchedCount[y := Put(yieldSchedCount[y], t, k)];
    }

    /** on_thread_block */
    method OnBlock(t: nat)
      requires Valid() && t < threads
      modifies this
      ensures Valid() && View() == OnThreadBlock(old(View()), t)
    {
      if totalYieldPriority[t] != 0 {
        var i := 0;
        while i != threads
          invariant Valid() && 0 <= i <= threads
          invariant PurgeRow(View(), t, i) == PurgeRow(old(View()), t, 0)
          decreases threads - i
        {
          if yieldPriority[t][i] != 0 {
            var p := yieldPriority[t][i];
            SetPriority(t, i, 0, if totalYieldPriority[t] >= p then totalYieldPriority[t] - p else 0);
            UnblockThread(i);
          }
          i := i + 1;
        }
      }
    }

    method BlockThread(t: nat)
      requires Valid() && t < threads
      modifies this
      ensures Valid() && View() == Block(old(View()), t)
    {
      if state[t] == Finished {
        failed := true;
        return;
      }
      if blockCount[t] != 0 {
        blockCount := blockCount[t := blockCount[t] + 1];
        return;
      }
      var i := 0;
      while i != |running|
        invariant 0 <= i <= |running| && View() == old(View())
        invariant forall j :: 0 <= j < i ==> running[j] != t
        decreases |running| - i
      {
        if running[i] == t {
          FirstIndex(running, t, i);
          blockCount := blockCount[t := blockCount[t] + 1];
          running := Without(running, i);
          state := state[t := Blocked];
          OnBlock(t);
          return;
        }
        i := i + 1;
      }
      failed := true;
    }

    method PurgeBlockedThreads()
      requires Valid()
      modifies this
      ensures Valid() && View() == PurgeAll(old(View()), 0)
    {
      var i := 0;
      while i != threads
        invariant Valid() && 0 <= i <= threads
        invariant PurgeAll(View(), i) == PurgeAll(old(View()), 0)
        decreases threads - i
      {
        OnBlock(i);
        i := i + 1;
      }
    }

    /** The loop body of yield_priority. */
    method YieldToOne(t: nat, rounds: nat, i: nat)
      requires Valid() && t < threads && i < threads
      modifies this
      ensures Valid() && View() == YieldOne(old(View()), t, rounds, i)
    {
      hide Block, PutPrio, PutSince;
      if yieldPriority[i][t] != 0 {
        failed := true;
        return;
      }
      if t != i && yieldSchedCount[i][t] < rounds && state[i] != Finished {
        SetPriority(i, t, rounds, totalYieldPriority[i] + rounds);
        BlockThread(t);
      }
      SetSchedCount(i, t, 0);
    }

    /** yield_priority */
    method YieldToOthers(t: nat, rounds: nat)
      requires Valid() && t < threads
      modifies this
      ensures Valid() && View() == YieldPriority(old(View()), t, rounds)
    {
      var i := 0;
      while i != threads
        invariant Valid() && 0 <= i <= threads
        invariant YieldFrom(View(), t, rounds, i) == YieldFrom(old(View()), t, rounds, 0)
        decreases threads - i
      {
        hide YieldOne;
        YieldToOne(t, rounds, i);
        i := i + 1;
      }
      if running == [] {
        PurgeBlockedThreads();
      }
    }

    /** The body of schedule_impl's loop over what t blocks. */
    method CreditThread(t: nat, i: nat)
      requires Valid() && t < threads && i < threads
      modifies this
      ensures Valid() && View() == CreditOne(old(View()), t, i)
    {
      if yieldPriority[t][i] != 0 {
        var p := yieldPriority[t][i] - 1;
        SetPriority(t, i, p, if totalYieldPriority[t] > 0 then totalYieldPriority[t] - 1 else 0);
        if p == 0 {
          UnblockThread(i);
        }
      }
      hide Unblock, PutPrio, PutSince;
      assert View() == CreditPrio(old(View()), t, i);
      SetSchedCount(t, i, yieldSchedCount[t][i] + 1);
    }

    /** The accounting half of schedule_impl. */
    method AccountFor(t: nat, rounds: nat)
      requires Valid() && t < threads
      modifies this
      ensures Valid() && View() == Account(old(View()), t, rounds)
    {
      if totalYieldPriority[t] != 0 {
        var i := 0;
        while i != threads
          invariant Valid() && 0 <= i <= threads
          invariant Credit(View(), t, i) == Credit(old(View()), t, 0)
          decreases threads - i
        {
          hide CreditOne;
          CreditThread(t, i);
          i := i + 1;
        }
      }
      if rounds != 0 {
        YieldToOthers(t, rounds);
      }
    }

    /** The search loop of unpark_thread. */
    method Find(list: seq<nat>, t: nat) returns (i: nat)
      ensures i <= |list| && (i < |list| <==> t in list) && (i < |list| ==> i == Index(list, t))
    {
      i := 0;
      while i != |list|
        invariant 0 <= i <= |list| && forall j :: 0 <= j < i ==> list[j] != t
        decreases |list| - i
      {
        if list[i] == t {
          FirstIndex(list, t, i);
          break;
        }
        i := i + 1;
      }
    }

    method UnparkThread(t: nat)
      requires Valid() && t < threads
      modifies this
      ensures Valid() && View() == Unpark(old(View()), t)
    {
      UnblockThread(t);
      hide Unblock, Index;
      var i := Find(spurious, t);
      if i != |spurious| {
        spurious := Without(spurious, i);
      }
      i := Find(timed, t);
      if i != |timed| {
        timed := Without(timed, i);
      }
    }

    /** is_deadlock */
    method IsDeadlock() returns (dead: bool)
      requires Valid()
      modifies this
      ensures Valid() && View() == TryPurge(old(View())) && dead == (Stuck(old(View())) && Stuck(View()))
    {
      if running == [] && timed == [] {
        PurgeBlockedThreads();
        return running == [] && timed == [];
      }
      return false;
    }

    method ParkCurrentThread(t: nat, isTimed: bool, allowSpurious: bool) returns (ok: bool)
      requires Valid() && t < threads
      modifies this
      ensures Valid()
      ensures var r := Block(ParkLists(old(View()), t, isTimed, allowSpurious), t);
              View() == TryPurge(r) && ok == !(Stuck(r) && Stuck(TryPurge(r)))
    {
      if isTimed {
        timed := timed + [t];
      }
      if allowSpurious {
        spurious := spurious + [t];
      }
      BlockThread(t);
      var dead := IsDeadlock();
      ok := !dead;
    }

    method CreateThread()
      requires Valid()
      modifies this
      ensures Valid() && View() == StartDynamic(old(View()))
    {
      if dynamic == [] || dynamic[|dynamic| - 1] >= threads {
        failed := true;
        return;
      }
      var t := dynamic[|dynamic| - 1];
      dynamic := dynamic[..|dynamic| - 1];
      UnblockThread(t);
    }

    method ThreadFinished(t: nat) returns (result: Result)
      requires Valid() && t < threads
      modifies this
      ensures Valid() && (View(), result) == Settle(MarkFinished(old(View()), t))
    {
      BlockThread(t);
      state := state[t := Finished];
      finished := finished + 1;
      ghost var m := View();
      if finished == threads {
        return Last;
      }
      var dead := IsDeadlock();
      if !dead {
        return Normal;
      }
      if dynamic == [] {
        return Deadlock;
      }
      while dynamic != [] && dynamic[|dynamic| - 1] < threads
        invariant Valid() && StartAllDynamic(View()) == StartAllDynamic(TryPurge(m))
        decreases |dynamic|
      {
        ghost var before := View();
        StartDynamicLess(before);
        CreateThread();
      }
      if finished == threads {
        return Last;
      }
      dead := IsDeadlock();
      result := if dead then Deadlock else Normal;
    }

    /** The choice that schedule_impl makes; false if there is nobody to run. */
    method Choose(p: Picks) returns (ok: bool, t: nat, woken: bool)
      requires Valid()
      modifies this
      ensures Valid()
      ensures match Select(old(View()), p)
              case Chosen(r, u, w) => ok && View() == r && t == u && woken == w
              case NoThread(r) => !ok && View() == r
    {
      ok, t, woken := true, 0, false;
      if p.timed < |timed| && timed[p.timed] < threads && blockCount[timed[p.timed]] == 1 {
        t, woken := timed[p.timed], true;
        UnparkThread(t);
        return;
      }
      if running == [] {
        ok := false;
        return;
      }
      if p.spurious < |spurious| && spurious[p.spurious] < threads && blockCount[spurious[p.spurious]] == 1 {
        t, woken := spurious[p.spurious], true;
        UnparkThread(t);
        return;
      }
      t := running[if p.running < |running| then p.running else 0];
    }

    /** schedule */
    method Schedule(cur: nat, rounds: nat, p: Picks) returns (ok: bool, t: nat, woken: bool)
      requires Valid() && cur < threads
      modifies this
      ensures Valid()
      ensures match Select(Account(old(View()), cur, rounds), p)
              case Chosen(r, u, w) => ok && View() == r && t == u && woken == w
              case NoThread(r) => !ok && View() == r
    {
      AccountFor(cur, rounds);
      ok, t, woken := Choose(p);
    }

    /** The second loop of iteration_begin. */
    method SetAsideDynamic(d: nat)
      requires Valid() && d <= threads
      modifies this
      ensures Valid() && View() == SetAside(old(View()), threads - d)
    {
      var i := threads - d;
      hide Block, SetAside, Shaped;
      while i != threads
        invariant Valid() && threads - d <= i <= threads
        invariant SetAside(View(), i) == SetAside(old(View()), threads - d)
        decreases threads - i
      {
        SetAsideStep(View(), i);
        SetAsideOne(i);
        i := i + 1;
      }
      SetAsideEnd(View());
    }

    method SetAsideOne(i: nat)
      requires Valid() && i < threads
      modifies this
      ensures Valid() && View() == Block(old(View()).(dynamic := old(dynamic) + [i]), i)
    {
      hide Block;
      dynamic := dynamic + [i];
      BlockThread(i);
    }
  }

  lemma SetAsideEnd(s: Sched)
    requires Shaped(s)
    ensures SetAside(s, |s.count|) == s
  {
  }

  lemma SetAsideStep(s: Sched, i: nat)
    requires Shaped(s) && i < |s.count|
    ensures SetAside(s, i) == SetAside(Block(s.(dynamic := s.dynamic + [i]), i), i + 1)
  {
  }

  lemma {:induction false} FirstIndex(s: seq<nat>, t: nat, i: nat)
    requires i < |s| && s[i] == t && forall j :: 0 <= j < i ==> s[j] != t
    ensures Index(s, t) == i
  {
    if i > 0 {
      FirstIndex(s[1..], t, i - 1);
    }
  }
}
