/** The recursive reader/writer mutex: its operations, split where a thread parks, as functions on
    the mutex state; the threads around it; and what holds in every reachable state. */
module RwMutex {
  import opened WaitSets
  import opened Sums

  /** exclusive_owner_: a thread, state_shared or state_free. */
  datatype Owner = Free | Shared | Exclusive(id: nat)

  datatype Settings = Settings(rw: bool, exclusiveRecursive: bool, sharedRecursive: bool, failingTryLock: bool)

  datatype Mutex = Mutex(
    settings: Settings,
    owner: Owner,
    recursion: nat,
    sharedOwner: seq<nat>,
    sharedCount: nat,
    exclusiveWait: seq<nat>,
    sharedWait: seq<nat>,
    tryLockFailed: bool)

  datatype Error = ReadToWriteUpgrade | WriteToReadUpgrade | RecursionOnNonrecursive | UnlockingWithoutOwnership

  datatype Outcome = Acquired | Refused | Parks | Released | Misuse(error: Error)

  /** What the operation does to the mutex's sync_var. */
  datatype Sync = NoSync | Acquire | Release

  datatype Effect = Effect(mutex: Mutex, outcome: Outcome, sync: Sync, unparked: seq<nat>)

  /** One scheduling step of a thread on the mutex. `fails` and `pick` are random choices. */
  datatype Op =
    | LockExclusive
    | TryLockExclusive(fails: bool)
    | UnlockExclusive(pick: nat)
    | LockShared
    | TryLockShared(fails: bool)
    | UnlockShared(pick: nat)
    | RetryExclusive
    | RetryShared
    | TimeoutExclusive

  // ---- the operations

  function Fails(m: Mutex, error: Error): Effect {
    Effect(m, Misuse(error), NoSync, [])
  }

  /** The loop body of lock_exclusive. */
  function TakeOrWaitExclusive(m: Mutex, t: nat): Effect {
    if m.owner == Free then Effect(m.(recursion := 1, owner := Exclusive(t)), Acquired, Acquire, [])
    else Effect(m.(exclusiveWait := m.exclusiveWait + [t]), Parks, NoSync, [])
  }

  predicate ReadersMayEnter(m: Mutex) {
    m.owner == Free || (m.owner == Shared && m.exclusiveWait == [])
  }

  function EnterShared(m: Mutex, t: nat): Mutex
    requires t < |m.sharedOwner|
  {
    m.(sharedOwner := m.sharedOwner[t := m.sharedOwner[t] + 1], sharedCount := m.sharedCount + 1, owner := Shared)
  }

  /** The loop body of lock_shared. */
  function TakeOrWaitShared(m: Mutex, t: nat): Effect
    requires t < |m.sharedOwner|
  {
    if ReadersMayEnter(m) then Effect(EnterShared(m, t), Acquired, Acquire, [])
    else Effect(m.(sharedWait := m.sharedWait + [t]), Parks, NoSync, [])
  }

  /** What both exclusive locks check first: None if the thread holds the mutex in no way. */
  datatype Early = Proceed | Early(effect: Effect)

  function HeldByWriter(m: Mutex, t: nat): Early
    requires t < |m.sharedOwner|
  {
    if m.owner == Shared && m.sharedOwner[t] > 0 then Early(Fails(m, ReadToWriteUpgrade))
    else if m.owner == Exclusive(t) then
      if m.settings.exclusiveRecursive then Early(Effect(m.(recursion := m.recursion + 1), Acquired, NoSync, []))
      else Early(Fails(m, RecursionOnNonrecursive))
    else Proceed
  }

  function HeldByReader(m: Mutex, t: nat): Early
    requires t < |m.sharedOwner|
  {
    if m.owner == Exclusive(t) then Early(Fails(m, WriteToReadUpgrade))
    else if m.owner == Shared && m.sharedOwner[t] > 0 then
      if m.settings.sharedRecursive then Early(Effect(EnterShared(m, t), Acquired, NoSync, []))
      else Early(Fails(m, RecursionOnNonrecursive))
    else Proceed
  }

  predicate FailsOnPurpose(m: Mutex, fails: bool) {
    m.settings.failingTryLock && !m.tryLockFailed && fails
  }

  function DoUnlockExclusive(m: Mutex, t: nat, pick: nat): Effect
    requires m.exclusiveWait != [] ==> pick < |m.exclusiveWait|
  {
    if m.owner != Exclusive(t) then Fails(m, UnlockingWithoutOwnership)
    else if m.recursion > 1 then Effect(m.(recursion := m.recursion - 1), Released, NoSync, [])
    else
      var free := m.(recursion := 0, owner := Free);
      if m.exclusiveWait != [] then
        Effect(free.(exclusiveWait := Without(m.exclusiveWait, pick)), Released, Release, [m.exclusiveWait[pick]])
      else
        Effect(free.(sharedWait := []), Released, Release, m.sharedWait)
  }

  function DoUnlockShared(m: Mutex, t: nat, pick: nat): Effect
    requires t < |m.sharedOwner|
    requires m.exclusiveWait != [] ==> pick < |m.exclusiveWait|
  {
    if m.owner != Shared || m.sharedOwner[t] == 0 || m.sharedCount == 0 then Fails(m, UnlockingWithoutOwnership)
    else
      var left := m.(sharedOwner := m.sharedOwner[t := m.sharedOwner[t] - 1], sharedCount := m.sharedCount - 1);
      if left.sharedCount != 0 then
        Effect(left, Released, if left.sharedOwner[t] > 0 then NoSync else Release, [])
      else if m.exclusiveWait != [] then
        Effect(left.(owner := Free, exclusiveWait := Without(m.exclusiveWait, pick)), Released, Release,
          [m.exclusiveWait[pick]])
      else
        Effect(left.(owner := Free), Released, Release, [])
  }

  /** A pick of unpark_one is in range. */
  predicate PickOk(m: Mutex, op: Op) {
    match op
    case UnlockExclusive(pick) => m.exclusiveWait != [] ==> pick < |m.exclusiveWait|
    case UnlockShared(pick) => m.exclusiveWait != [] ==> pick < |m.exclusiveWait|
    case _ => true
  }

  function Do(m: Mutex, t: nat, op: Op): (e: Effect)
    requires t < |m.sharedOwner| && PickOk(m, op)
    requires op.TimeoutExclusive? ==> t in m.exclusiveWait
  {
    match op
    case LockExclusive =>
      var early := HeldByWriter(m, t);
      if early.Early? then early.effect else TakeOrWaitExclusive(m, t)
    case TryLockExclusive(fails) =>
      var early := HeldByWriter(m, t);
      if early.Early? then early.effect
      else if m.owner != Free then Effect(m, Refused, NoSync, [])
      else if FailsOnPurpose(m, fails) then Effect(m.(tryLockFailed := true), Refused, NoSync, [])
      else TakeOrWaitExclusive(m, t)
    case UnlockExclusive(pick) => DoUnlockExclusive(m, t, pick)
    case LockShared =>
      var early := HeldByReader(m, t);
      if early.Early? then early.effect else TakeOrWaitShared(m, t)
    case TryLockShared(fails) =>
      var early := HeldByReader(m, t);
      if early.Early? then early.effect
      else if !ReadersMayEnter(m) then Effect(m, Refused, NoSync, [])
      else if FailsOnPurpose(m, fails) then Effect(m.(tryLockFailed := true), Refused, NoSync, [])
      else TakeOrWaitShared(m, t)
    case UnlockShared(pick) => DoUnlockShared(m, t, pick)
    case RetryExclusive => TakeOrWaitExclusive(m, t)
    case RetryShared => TakeOrWaitShared(m, t)
    case TimeoutExclusive =>
      Effect(m.(exclusiveWait := Without(m.exclusiveWait, Index(m.exclusiveWait, t))), Refused, Acquire, [])
  }

  // ---- the threads around the mutex

  datatype Pc = Idle | ParkedExclusive | RetryingExclusive | ParkedShared | RetryingShared

  datatype System = System(mutex: Mutex, pcs: seq<Pc>)

  function Woken(pc: Pc): Pc {
    match pc
    case ParkedExclusive => RetryingExclusive
    case ParkedShared => RetryingShared
    case _ => pc
  }

  function Wake(pcs: seq<Pc>, unparked: seq<nat>): (r: seq<Pc>)
    ensures |r| == |pcs| && forall u :: 0 <= u < |pcs| ==> r[u] == if u in unparked then Woken(pcs[u]) else pcs[u]
  {
    seq(|pcs|, u requires 0 <= u < |pcs| => if u in unparked then Woken(pcs[u]) else pcs[u])
  }

  function PcAfter(op: Op, outcome: Outcome): Pc {
    if outcome != Parks then Idle
    else if op.LockExclusive? || op.RetryExclusive? then ParkedExclusive
    else ParkedShared
  }

  /** A thread in the lock loop retries when unparked, or times out while parked; any other thread calls an
      operation. */
  predicate CanDo(s: System, t: nat, op: Op) {
    && t < |s.pcs| == |s.mutex.sharedOwner| && PickOk(s.mutex, op)
    && (op.LockShared? || op.TryLockShared? || op.UnlockShared? ==> s.mutex.settings.rw)
    && s.pcs[t] == (if op.RetryExclusive? then RetryingExclusive
                    else if op.RetryShared? then RetryingShared
                    else if op.TimeoutExclusive? then ParkedExclusive
                    else Idle)
    && (op.TimeoutExclusive? ==> t in s.mutex.exclusiveWait)
  }

  function Next(s: System, t: nat, op: Op): (r: System)
    requires CanDo(s, t, op)
    ensures |r.pcs| == |s.pcs|
  {
    var e := Do(s.mutex, t, op);
    System(e.mutex, Wake(s.pcs[t := PcAfter(op, e.outcome)], e.unparked))
  }

  // ---- invariants

  /** A wait set holds exactly the threads parked on it, once each. */
  ghost predicate Waiters(pcs: seq<Pc>, wait: seq<nat>, pc: Pc) {
    Distinct(wait) && forall t: nat :: t in wait <==> t < |pcs| && pcs[t] == pc
  }

  /** The owner, the counts and the per-thread shares agree: free, shared and exclusive exclude each other. */
  ghost predicate Owned(m: Mutex, n: nat) {
    && |m.sharedOwner| == n && m.sharedCount == Sum(m.sharedOwner)
    && (match m.owner
        case Free => m.recursion == 0 && m.sharedCount == 0
        case Shared => m.recursion == 0 && m.sharedCount > 0
        case Exclusive(o) => o < n && m.recursion > 0 && m.sharedCount == 0)
    && (m.recursion > 1 ==> m.settings.exclusiveRecursive)
    && (!m.settings.sharedRecursive ==> forall u :: 0 <= u < n ==> m.sharedOwner[u] <= 1)
  }

  predicate Holds(m: Mutex, t: nat) {
    m.owner == Exclusive(t) || (t < |m.sharedOwner| && m.sharedOwner[t] > 0)
  }

  /** A parked writer: the mutex is held, or an unparked writer has yet to retry. */
  ghost predicate WritersNotLost(s: System) {
    s.mutex.exclusiveWait != [] ==>
        s.mutex.owner != Free || exists u :: 0 <= u < |s.pcs| && s.pcs[u] == RetryingExclusive
  }

  /** A parked reader: a writer holds the mutex, waits for it, or is unparked and has yet to retry. */
  ghost predicate ReadersNotLost(s: System) {
    s.mutex.sharedWait != [] ==>
      s.mutex.owner.Exclusive? || s.mutex.exclusiveWait != []
        || exists u :: 0 <= u < |s.pcs| && s.pcs[u] == RetryingExclusive
  }

  ghost predicate Inv(s: System) {
    && Owned(s.mutex, |s.pcs|)
    && Waiters(s.pcs, s.mutex.exclusiveWait, ParkedExclusive)
    && Waiters(s.pcs, s.mutex.sharedWait, ParkedShared)
    && (forall t :: 0 <= t < |s.pcs| && s.pcs[t] != Idle ==> !Holds(s.mutex, t))
    && WritersNotLost(s)
  }

  lemma OwnedEnter(m: Mutex, n: nat, t: nat)
    requires Owned(m, n) && t < n && !m.owner.Exclusive? && (m.settings.sharedRecursive || m.sharedOwner[t] == 0)
    ensures Owned(EnterShared(m, t), n)
  {
    SumPut(m.sharedOwner, t, m.sharedOwner[t] + 1);
  }

  lemma OwnedLeave(m: Mutex, n: nat, t: nat, pick: nat)
    requires Owned(m, n) && t < n && (m.exclusiveWait != [] ==> pick < |m.exclusiveWait|)
    ensures Owned(DoUnlockShared(m, t, pick).mutex, n)
  {
    if m.owner == Shared && m.sharedOwner[t] > 0 {
      SumPut(m.sharedOwner, t, m.sharedOwner[t] - 1);
    }
  }

  /** Nobody holds more than there is. */
  lemma HoldersCount(m: Mutex, n: nat)
    requires Owned(m, n)
    ensures forall u :: 0 <= u < n ==> m.sharedOwner[u] <= m.sharedCount
    ensures forall u :: u >= n ==> !Holds(m, u)
    ensures m.owner == Free ==> forall u :: !Holds(m, u)
    ensures forall u: nat :: m.owner.Exclusive? && Holds(m, u) ==> m.owner.id == u
  {
    forall u | 0 <= u < n
      ensures m.sharedOwner[u] <= m.sharedCount
    {
      SumHas(m.sharedOwner, u);
    }
  }

  lemma OwnedStep(m: Mutex, n: nat, t: nat, op: Op)
    requires Owned(m, n) && t < n && PickOk(m, op) && (op.TimeoutExclusive? ==> t in m.exclusiveWait)
    requires op.RetryExclusive? || op.RetryShared? ==> !Holds(m, t)
    ensures Owned(Do(m, t, op).mutex, n)
  {
    hide Sum;
    if op.UnlockShared? {
      OwnedLeave(m, n, t, op.pick);
    } else {
      HoldersCount(m, n);
      if m.owner.Exclusive? || !(m.settings.sharedRecursive || m.sharedOwner[t] == 0) {
      } else {
        OwnedEnter(m, n, t);
      }
    }
  }

  /** What another thread holds does not change, and parking or timing out takes nothing. */
  lemma HoldsStep(m: Mutex, n: nat, t: nat, op: Op)
    requires Owned(m, n) && t < n && PickOk(m, op) && (op.TimeoutExclusive? ==> t in m.exclusiveWait)
    requires op.RetryExclusive? || op.RetryShared? || op.TimeoutExclusive? ==> !Holds(m, t)
    ensures var e := Do(m, t, op);
            && (forall u :: 0 <= u && u != t ==> (Holds(e.mutex, u) <==> Holds(m, u)))
            && (e.outcome == Parks || op.TimeoutExclusive? ==> !Holds(e.mutex, t))
  {
    HoldersCount(m, n);
    hide Sum;
  }

  lemma Joins(pcs: seq<Pc>, wait: seq<nat>, t: nat, pc: Pc)
    requires Waiters(pcs, wait, pc) && t < |pcs| && pcs[t] != pc
    ensures Waiters(pcs[t := pc], wait + [t], pc)
  {
  }

  lemma Unrelated(pcs: seq<Pc>, wait: seq<nat>, t: nat, other: Pc, pc: Pc)
    requires Waiters(pcs, wait, pc) && t < |pcs| && pcs[t] != pc && other != pc
    ensures Waiters(pcs[t := other], wait, pc)
  {
  }

  lemma Leaves(pcs: seq<Pc>, wait: seq<nat>, i: nat, other: Pc, pc: Pc)
    requires Waiters(pcs, wait, pc) && i < |wait| && other != pc
    ensures wait[i] < |pcs|
    ensures Waiters(pcs[wait[i] := other], Without(wait, i), pc)
  {
    assert wait[i] in wait;
  }

  lemma OneWakes(pcs: seq<Pc>, wait: seq<nat>, i: nat, pc: Pc)
    requires Waiters(pcs, wait, pc) && i < |wait| && (pc == ParkedExclusive || pc == ParkedShared)
    ensures Waiters(Wake(pcs, [wait[i]]), Without(wait, i), pc)
    ensures wait[i] < |pcs| && Wake(pcs, [wait[i]])[wait[i]] == Woken(pc)
  {
    assert wait[i] in wait;
  }

  lemma AllWake(pcs: seq<Pc>, wait: seq<nat>, pc: Pc)
    requires Waiters(pcs, wait, pc) && (pc == ParkedExclusive || pc == ParkedShared)
    ensures Waiters(Wake(pcs, wait), [], pc)
  {
  }

  lemma OthersWake(pcs: seq<Pc>, wait: seq<nat>, unparked: seq<nat>, pc: Pc)
    requires Waiters(pcs, wait, pc) && (pc == ParkedExclusive || pc == ParkedShared)
    requires forall u :: u in unparked ==> u !in wait
    ensures Waiters(Wake(pcs, unparked), wait, pc)
  {
  }

  lemma NobodyWakes(pcs: seq<Pc>)
    ensures Wake(pcs, []) == pcs
  {
  }

  /** Both wait sets, before and after a step that unparks nobody. */
  lemma WaitersPark(s: System, t: nat, op: Op)
    requires Inv(s) && CanDo(s, t, op) && Do(s.mutex, t, op).unparked == []
    ensures Waiters(Next(s, t, op).pcs, Next(s, t, op).mutex.exclusiveWait, ParkedExclusive)
    ensures Waiters(Next(s, t, op).pcs, Next(s, t, op).mutex.sharedWait, ParkedShared)
  {
    var e := Do(s.mutex, t, op);
    var pc := PcAfter(op, e.outcome);
    NobodyWakes(s.pcs[t := pc]);
    var ex, sh := s.mutex.exclusiveWait, s.mutex.sharedWait;
    if op.TimeoutExclusive? {
      Leaves(s.pcs, ex, Index(ex, t), pc, ParkedExclusive);
      Unrelated(s.pcs, sh, t, pc, ParkedShared);
    } else if pc == ParkedExclusive {
      Joins(s.pcs, ex, t, pc);
      Unrelated(s.pcs, sh, t, pc, ParkedShared);
    } else if pc == ParkedShared {
      Joins(s.pcs, sh, t, pc);
      Unrelated(s.pcs, ex, t, pc, ParkedExclusive);
    } else {
      Unrelated(s.pcs, ex, t, pc, ParkedExclusive);
      Unrelated(s.pcs, sh, t, pc, ParkedShared);
    }
    hide Waiters, Owned, WritersNotLost, Wake;
  }

  lemma WaitersUnpark(s: System, t: nat, op: Op)
    requires Inv(s) && CanDo(s, t, op) && Do(s.mutex, t, op).unparked != []
    ensures Waiters(Next(s, t, op).pcs, Next(s, t, op).mutex.exclusiveWait, ParkedExclusive)
    ensures Waiters(Next(s, t, op).pcs, Next(s, t, op).mutex.sharedWait, ParkedShared)
    ensures s.mutex.exclusiveWait != [] ==> exists u :: 0 <= u < |s.pcs| && Next(s, t, op).pcs[u] == RetryingExclusive
  {
    var e := Do(s.mutex, t, op);
    var pcs := s.pcs[t := Idle];
    var ex, sh := s.mutex.exclusiveWait, s.mutex.sharedWait;
    assert op.UnlockExclusive? || op.UnlockShared?;
    assert s.pcs == pcs;
    assert Waiters(s.pcs, ex, ParkedExclusive) && Waiters(s.pcs, sh, ParkedShared);
    if ex != [] {
      assert forall u :: u in ex ==> u !in sh;
      hide Waiters, Owned, WritersNotLost, Wake;
      OneWakes(pcs, ex, op.pick, ParkedExclusive);
      assert ex[op.pick] in ex;
      OthersWake(pcs, sh, [ex[op.pick]], ParkedShared);
    } else {
      assert forall u :: u in sh ==> u !in ex;
      hide Waiters, Owned, WritersNotLost, Wake;
      AllWake(pcs, sh, ParkedShared);
      OthersWake(pcs, ex, sh, ParkedExclusive);
    }
  }

  /** Who waits: nothing is unparked except when the mutex becomes free. */
  lemma UnparkedMeans(m: Mutex, t: nat, op: Op)
    requires t < |m.sharedOwner| && PickOk(m, op) && (op.TimeoutExclusive? ==> t in m.exclusiveWait)
    ensures var e := Do(m, t, op);
            && (e.unparked != [] ==> (op.UnlockExclusive? || op.UnlockShared?) && e.outcome == Released)
            && (e.unparked == [] && e.mutex.owner == Free && m.owner != Free ==> e.mutex.exclusiveWait == [])
            && (m.exclusiveWait == [] && e.mutex.exclusiveWait != [] ==> e.mutex.owner != Free)
            && (e.outcome == Parks && PcAfter(op, e.outcome) == ParkedShared ==>
                  e.mutex.owner.Exclusive? || e.mutex.exclusiveWait != [])
            && (op.RetryExclusive? ==>
                  e.mutex.owner.Exclusive? || (e.mutex.exclusiveWait != [] && e.mutex.owner != Free))
            && (m.exclusiveWait == [] && e.outcome != Parks ==> e.mutex.exclusiveWait == [])
            && (e.mutex.sharedWait == m.sharedWait || e.mutex.sharedWait == []
                || (e.outcome == Parks && PcAfter(op, e.outcome) == ParkedShared))
            && (m.owner.Exclusive? && !e.mutex.owner.Exclusive? ==> e.unparked != [] || e.mutex.sharedWait == [])
            && (e.unparked == [] && !op.TimeoutExclusive? && m.exclusiveWait != [] ==> e.mutex.exclusiveWait != [])
  {
  }

  /** Threads other than t that are about to retry stay so. */
  lemma RetryingStay(s: System, t: nat, op: Op, u: nat)
    requires CanDo(s, t, op) && u < |s.pcs| && u != t && s.pcs[u] == RetryingExclusive
    ensures Next(s, t, op).pcs[u] == RetryingExclusive
  {
    hide Do;
  }

  lemma WritersStep(s: System, t: nat, op: Op)
    requires Inv(s) && CanDo(s, t, op)
    ensures WritersNotLost(Next(s, t, op))
  {
    hide Do, Owned, Waiters;
    var r := Next(s, t, op);
    UnparkedMeans(s.mutex, t, op);
    if Do(s.mutex, t, op).unparked != [] {
      if s.mutex.exclusiveWait != [] {
        WaitersUnpark(s, t, op);
      }
    } else if r.mutex.exclusiveWait != [] && r.mutex.owner == Free {
      assert s.mutex.exclusiveWait != [] && s.mutex.owner == Free;
      var u :| 0 <= u < |s.pcs| && s.pcs[u] == RetryingExclusive;
      RetryingStay(s, t, op, u);
    }
  }

  lemma InvStep(s: System, t: nat, op: Op)
    requires Inv(s) && CanDo(s, t, op)
    ensures Inv(Next(s, t, op))
  {
    var e, r := Do(s.mutex, t, op), Next(s, t, op);
    OwnedStep(s.mutex, |s.pcs|, t, op);
    HoldsStep(s.mutex, |s.pcs|, t, op);
    WritersStep(s, t, op);
    if e.unparked != [] {
      WaitersUnpark(s, t, op);
    } else {
      WaitersPark(s, t, op);
    }
    hide Do, Owned, Waiters, WritersNotLost, Holds;
    forall u | 0 <= u < |r.pcs| && r.pcs[u] != Idle
      ensures !Holds(r.mutex, u)
    {
      UnparkedMeans(s.mutex, t, op);
      if u != t {
        assert s.pcs[u] != Idle;
      }
    }
  }

  lemma ReadersStep(s: System, t: nat, op: Op)
    requires Inv(s) && ReadersNotLost(s) && CanDo(s, t, op) && !op.TimeoutExclusive?
    ensures ReadersNotLost(Next(s, t, op))
  {
    hide Do, Owned, Waiters, WritersNotLost;
    var r := Next(s, t, op);
    UnparkedMeans(s.mutex, t, op);
    if Do(s.mutex, t, op).unparked != [] {
      if s.mutex.exclusiveWait != [] {
        WaitersUnpark(s, t, op);
      } else {
        UnlockWakesReaders(s.mutex, t, op);
      }
    } else if r.mutex.sharedWait != [] && s.mutex.sharedWait != [] && !r.mutex.owner.Exclusive?
      && r.mutex.exclusiveWait == [] {
      var u :| 0 <= u < |s.pcs| && s.pcs[u] == RetryingExclusive;
      RetryingStay(s, t, op, u);
    }
  }

  lemma UnlockWakesReaders(m: Mutex, t: nat, op: Op)
    requires t < |m.sharedOwner| && PickOk(m, op) && (op.TimeoutExclusive? ==> t in m.exclusiveWait)
    requires m.exclusiveWait == [] && Do(m, t, op).unparked != []
    ensures Do(m, t, op).mutex.sharedWait == []
  {
  }

  /** A thread that begins to hold the mutex has acquired its sync_var, and one that stops has released it. */
  lemma HoldingSyncs(m: Mutex, n: nat, t: nat, op: Op)
    requires Owned(m, n) && t < n && PickOk(m, op) && (op.TimeoutExclusive? ==> t in m.exclusiveWait)
    ensures var e := Do(m, t, op);
            && (!Holds(m, t) && Holds(e.mutex, t) ==> e.sync == Acquire)
            && (Holds(m, t) && !Holds(e.mutex, t) ==> e.sync == Release)
            && (m.owner != Exclusive(t) && e.mutex.owner == Exclusive(t) ==> e.sync == Acquire && m.owner == Free)
            && (!Holds(m, t) && Holds(e.mutex, t) ==> !m.owner.Exclusive?)
            && (m.owner == Exclusive(t) && e.mutex.owner != Exclusive(t) ==> e.sync == Release)
            && (forall u :: u != t ==> (m.owner == Exclusive(u) <==> e.mutex.owner == Exclusive(u)))
  {
    HoldersCount(m, n);
    hide Sum;
  }

  // ---- runs

  datatype Step = Step(t: nat, op: Op)

  function Start(settings: Settings, n: nat): System {
    System(Mutex(settings, Free, 0, seq(n, u => 0), 0, [], [], false), seq(n, u => Idle))
  }

  /** r is reached from a new mutex among n threads; `timed` tells whether a timed lock may give up. */
  ghost predicate Reached(settings: Settings, n: nat, steps: seq<Step>, timed: bool, r: System)
    decreases |steps|
  {
    if steps == [] then r == Start(settings, n)
    else
      var last := steps[|steps| - 1];
      exists s :: Reached(settings, n, steps[..|steps| - 1], timed, s) && Leads(s, last, timed, r)
  }

  predicate Leads(s: System, step: Step, timed: bool, r: System) {
    CanDo(s, step.t, step.op) && (timed || !step.op.TimeoutExclusive?) && r == Next(s, step.t, step.op)
  }

  /** Main theorem: in every reachable state of any number of threads, the ownership states exclude each
      other, shared_lock_count_ is the sum of shared_owner_, the wait sets hold exactly the parked threads,
      no waiter holds the mutex, and a parked writer is never lost; without timed locks a parked reader is
      never lost either. */
  lemma {:induction false} Always(settings: Settings, n: nat, steps: seq<Step>, timed: bool, r: System)
    requires Reached(settings, n, steps, timed, r)
    ensures Inv(r) && (!timed ==> ReadersNotLost(r))
    decreases |steps|
  {
    if steps == [] {
      SumNone(n);
    } else {
      var last := steps[|steps| - 1];
      var s :| Reached(settings, n, steps[..|steps| - 1], timed, s) && Leads(s, last, timed, r);
      Always(settings, n, steps[..|steps| - 1], timed, s);
      hide Inv, Next, CanDo, ReadersNotLost;
      InvStep(s, last.t, last.op);
      if !timed {
        ReadersStep(s, last.t, last.op);
      }
    }
  }

  /** A writer excludes everybody else. */
  lemma MutualExclusion(settings: Settings, n: nat, steps: seq<Step>, timed: bool, r: System, t: nat, u: nat)
    requires Reached(settings, n, steps, timed, r) && r.mutex.owner == Exclusive(t) && u != t
    ensures !Holds(r.mutex, u)
  {
    Always(settings, n, steps, timed, r);
    HoldersCount(r.mutex, |r.pcs|);
  }

  /** No lost wakeup: when nobody holds the mutex and no unparked thread has yet to retry, nobody is parked. */
  lemma NobodyIsStranded(settings: Settings, n: nat, steps: seq<Step>, r: System)
    requires Reached(settings, n, steps, false, r)
    requires forall u: nat :: !Holds(r.mutex, u)
    requires forall u :: 0 <= u < |r.pcs| ==> r.pcs[u] != RetryingExclusive
    ensures forall u :: 0 <= u < |r.pcs| ==> r.pcs[u] != ParkedExclusive && r.pcs[u] != ParkedShared
  {
    Always(settings, n, steps, false, r);
    hide *;
    if r.mutex.owner != Free {
      OwnedOf(r);
      SomeoneHolds(r.mutex, |r.pcs|);
    }
    NobodyWaits(r);
  }

  lemma OwnedOf(r: System)
    requires Inv(r)
    ensures Owned(r.mutex, |r.pcs|)
  {
  }

  lemma NobodyWaits(r: System)
    requires Inv(r) && ReadersNotLost(r) && r.mutex.owner == Free
    requires forall u :: 0 <= u < |r.pcs| ==> r.pcs[u] != RetryingExclusive
    ensures forall u :: 0 <= u < |r.pcs| ==> r.pcs[u] != ParkedExclusive && r.pcs[u] != ParkedShared
  {
    assert r.mutex.exclusiveWait == [] && r.mutex.sharedWait == [];
    forall u: nat | u < |r.pcs|
      ensures r.pcs[u] != ParkedExclusive && r.pcs[u] != ParkedShared
    {
      assert u !in r.mutex.exclusiveWait && u !in r.mutex.sharedWait;
    }
  }

  lemma SomeoneHolds(m: Mutex, n: nat)
    requires Owned(m, n) && m.owner != Free
    ensures exists u: nat :: Holds(m, u)
  {
    match m.owner
    case Exclusive(o) => assert Holds(m, o);
    case Shared =>
      var u := Positive(m.sharedOwner);
      assert Holds(m, u);
  }

  // ---- how often a thread holds the mutex

  /** How many unlocks thread t owes. */
  function Depth(m: Mutex, t: nat): nat {
    (if m.owner == Exclusive(t) then m.recursion else 0) + if t < |m.sharedOwner| then m.sharedOwner[t] else 0
  }

  /** Every successful lock of a thread, recursive or not, is one level more and every unlock one less; no other
      operation changes the levels of anybody. */
  lemma DepthStep(m: Mutex, n: nat, t: nat, op: Op, u: nat)
    requires Owned(m, n) && t < n && PickOk(m, op) && (op.TimeoutExclusive? ==> t in m.exclusiveWait)
    requires op.RetryExclusive? || op.RetryShared? || op.TimeoutExclusive? ==> !Holds(m, t)
    ensures var e := Do(m, t, op);
            Depth(e.mutex, u) == Depth(m, u) + (if u == t && e.outcome == Acquired then 1 else 0)
                                 - (if u == t && e.outcome == Released then 1 else 0)
  {
    HoldersCount(m, n);
    hide Sum;
  }

  /** The mutex is free exactly when nobody owes an unlock, and a thread holds it exactly when it owes one. */
  lemma DepthMeans(m: Mutex, n: nat)
    requires Owned(m, n)
    ensures m.owner == Free <==> forall u: nat :: Depth(m, u) == 0
    ensures forall u: nat :: Holds(m, u) <==> Depth(m, u) > 0
  {
    HoldersCount(m, n);
    if m.owner != Free {
      SomeoneHolds(m, n);
      var u: nat :| Holds(m, u);
      assert Depth(m, u) > 0;
    }
    hide Sum;
  }

  /** Thread t does the step, with this outcome. */
  predicate Does(s: System, step: Step, t: nat, outcome: Outcome) {
    step.t == t && CanDo(s, t, step.op) && Do(s.mutex, t, step.op).outcome == outcome
  }

  /** How often thread t has had this outcome in the first i steps of a run. */
  ghost function Count(steps: seq<Step>, ss: seq<System>, i: nat, t: nat, outcome: Outcome): nat
    requires i <= |steps| <= |ss|
  {
    if i == 0 then 0
    else Count(steps, ss, i - 1, t, outcome) + if Does(ss[i - 1], steps[i - 1], t, outcome) then 1 else 0
  }

  lemma PathStep(settings: Settings, n: nat, steps: seq<Step>, ss: seq<System>, i: nat)
    requires Path(settings, n, steps, ss) && i < |steps|
    ensures |ss| == |steps| + 1 && Leads(ss[i], steps[i], true, ss[i + 1])
  {
    hide Leads;
  }

  lemma StartDepth(settings: Settings, n: nat, steps: seq<Step>, ss: seq<System>, t: nat)
    requires Path(settings, n, steps, ss)
    ensures |ss| > 0 && Depth(ss[0].mutex, t) == 0
  {
    hide Leads;
  }

  lemma DepthNext(s: System, step: Step, r: System, u: nat)
    requires Inv(s) && Leads(s, step, true, r)
    ensures Depth(r.mutex, u) == Depth(s.mutex, u) + (if Does(s, step, u, Acquired) then 1 else 0)
                                 - (if Does(s, step, u, Released) then 1 else 0)
  {
    assert s.pcs[step.t] != Idle ==> !Holds(s.mutex, step.t);
    hide Do, Depth, Owned, Holds;
    DepthStep(s.mutex, |s.pcs|, step.t, step.op, u);
  }

  /** Main theorem: over every run, what a thread owes is the number of its successful locks minus that of its unlocks:
      k locks are undone by exactly k unlocks. */
  lemma {:induction false} LocksAndUnlocks(settings: Settings, n: nat, steps: seq<Step>, ss: seq<System>, i: nat,
      t: nat)
    requires Path(settings, n, steps, ss) && i <= |steps|
    ensures Depth(ss[i].mutex, t) == Count(steps, ss, i, t, Acquired) - Count(steps, ss, i, t, Released)
  {
    assert |ss| == |steps| + 1;
    hide Do, Depth, Inv, Leads, CanDo, Path, Does;
    if i == 0 {
      StartDepth(settings, n, steps, ss, t);
    } else {
      PathStep(settings, n, steps, ss, i - 1);
      LocksAndUnlocks(settings, n, steps, ss, i - 1, t);
      PathInv(settings, n, steps, ss, i - 1);
      DepthNext(ss[i - 1], steps[i - 1], ss[i], t);
    }
  }

  /** Main theorem: a thread holds the mutex exactly while it has locked it more often than unlocked it, and the
      mutex is free exactly when that is so for nobody. */
  lemma HoldsWhileAhead(settings: Settings, n: nat, steps: seq<Step>, ss: seq<System>, i: nat)
    requires Path(settings, n, steps, ss) && i <= |steps|
    ensures forall t: nat ::
              Holds(ss[i].mutex, t) <==> Count(steps, ss, i, t, Acquired) > Count(steps, ss, i, t, Released)
    ensures ss[i].mutex.owner == Free <==>
              forall t: nat :: Count(steps, ss, i, t, Acquired) == Count(steps, ss, i, t, Released)
  {
    assert |ss| == |steps| + 1;
    PathInv(settings, n, steps, ss, i);
    OwnedOf(ss[i]);
    hide *;
    DepthMeans(ss[i].mutex, |ss[i].pcs|);
    forall t: nat
      ensures Depth(ss[i].mutex, t) == Count(steps, ss, i, t, Acquired) - Count(steps, ss, i, t, Released)
    {
      LocksAndUnlocks(settings, n, steps, ss, i, t);
    }
  }

  // ---- when the operations succeed

  predicate Upgrades(m: Mutex, t: nat) {
    t < |m.sharedOwner| && m.sharedOwner[t] > 0
  }

  /** lock_exclusive succeeds at once exactly on a free mutex and for the owner of a recursive one; it parks
      exactly when only others hold the mutex; a reader and the owner of a non-recursive mutex are reported.
      try_lock_exclusive succeeds in the same cases but for one injected failure on a free mutex, and fails where
      the other would park. */
  lemma WriterGetsIn(m: Mutex, n: nat, t: nat, fails: bool)
    requires Owned(m, n) && t < n
    ensures var lock, again := Do(m, t, LockExclusive).outcome, m.owner == Exclusive(t)
            && m.settings.exclusiveRecursive;
            && (lock == Acquired <==> m.owner == Free || again)
            && (lock == Parks <==> m.owner != Free && !Holds(m, t))
            && (lock == Misuse(ReadToWriteUpgrade) <==> Upgrades(m, t))
            && (lock == Misuse(RecursionOnNonrecursive) <==> m.owner == Exclusive(t) && !again)
            && var try := Do(m, t, TryLockExclusive(fails)).outcome;
               var injected := m.owner == Free && m.settings.failingTryLock && !m.tryLockFailed && fails;
               && (try == Acquired <==> lock == Acquired && !injected)
               && (try == Refused <==> lock == Parks || injected)
               && (lock.Misuse? ==> try == lock)
               && (Do(m, t, TryLockExclusive(fails)).mutex.tryLockFailed <==> m.tryLockFailed || injected)
  {
    HoldersCount(m, n);
    hide Sum;
  }

  /** lock_shared succeeds at once exactly on a free mutex, on a shared one that no writer waits for, and for a
      reader of a recursive one; it parks exactly when the thread holds nothing and a writer owns the mutex or
      waits for it. */
  lemma ReaderGetsIn(m: Mutex, n: nat, t: nat, fails: bool)
    requires Owned(m, n) && t < n
    ensures var lock, again := Do(m, t, LockShared).outcome, Upgrades(m, t) && m.settings.sharedRecursive;
            && (lock == Acquired <==>
                  m.owner == Free || again || (m.owner == Shared && m.exclusiveWait == [] && !Holds(m, t)))
            && (lock == Parks <==> !Holds(m, t) && m.owner != Free && (m.owner.Exclusive? || m.exclusiveWait != []))
            && (lock == Misuse(WriteToReadUpgrade) <==> m.owner == Exclusive(t))
            && (lock == Misuse(RecursionOnNonrecursive) <==> Upgrades(m, t) && !again)
            && var try := Do(m, t, TryLockShared(fails)).outcome;
               var injected := lock == Acquired && !again && m.settings.failingTryLock && !m.tryLockFailed && fails;
               && (try == Acquired <==> lock == Acquired && !injected)
               && (try == Refused <==> lock == Parks || injected)
               && (lock.Misuse? ==> try == lock)
               && (Do(m, t, TryLockShared(fails)).mutex.tryLockFailed <==> m.tryLockFailed || injected)
  {
    HoldersCount(m, n);
    hide Sum;
  }

  /** An unlock succeeds exactly for a thread that holds the mutex in that way. The one that frees it wakes the
      writer that is picked, or, after a writer, all readers if no writer waits; any other wakes nobody. */
  lemma UnlocksSucceed(m: Mutex, n: nat, t: nat, pick: nat)
    requires Owned(m, n) && t < n && (m.exclusiveWait != [] ==> pick < |m.exclusiveWait|)
    ensures var w, r := Do(m, t, UnlockExclusive(pick)), Do(m, t, UnlockShared(pick));
            && (w.outcome == Released <==> m.owner == Exclusive(t))
            && (r.outcome == Released <==> Upgrades(m, t))
            && (w.outcome != Released ==> w == Fails(m, UnlockingWithoutOwnership))
            && (r.outcome != Released ==> r == Fails(m, UnlockingWithoutOwnership))
            && (w.outcome == Released ==>
                  w.unparked == if Depth(m, t) > 1 then [] else if m.exclusiveWait != [] then [m.exclusiveWait[pick]]
                                else m.sharedWait)
            && (r.outcome == Released ==>
                  r.unparked == if m.sharedCount > 1 || m.exclusiveWait == [] then [] else [m.exclusiveWait[pick]])
  {
    HoldersCount(m, n);
    hide Sum;
  }

  // ---- timed writers

  /** A writer that times out leaves the parked readers to nobody, unless another writer is about. */
  lemma TimeoutLosesReaders(s: System, t: nat)
    requires Inv(s) && CanDo(s, t, TimeoutExclusive)
    ensures ReadersNotLost(Next(s, t, TimeoutExclusive)) <==>
            || s.mutex.sharedWait == [] || s.mutex.owner.Exclusive? || |s.mutex.exclusiveWait| > 1
            || exists u :: 0 <= u < |s.pcs| && s.pcs[u] == RetryingExclusive
  {
    var r := Next(s, t, TimeoutExclusive);
    assert s.pcs[t] == ParkedExclusive;
    assert forall u :: 0 <= u < |s.pcs| ==> (r.pcs[u] == RetryingExclusive <==> s.pcs[u] == RetryingExclusive);
  }

  /** A whole run: every state on the way. */
  ghost predicate Path(settings: Settings, n: nat, steps: seq<Step>, ss: seq<System>) {
    && |ss| == |steps| + 1 && ss[0] == Start(settings, n)
    && forall i :: 0 <= i < |steps| ==> Leads(ss[i], steps[i], true, ss[i + 1])
  }

  /** The step is a timeout of the last waiting writer, while readers are parked, no writer owns the mutex and none has
      yet to retry. */
  predicate Abandons(s: System, step: Step) {
    && step.op.TimeoutExclusive? && s.mutex.sharedWait != [] && !s.mutex.owner.Exclusive?
    && |s.mutex.exclusiveWait| <= 1
    && forall u :: 0 <= u < |s.pcs| ==> s.pcs[u] != RetryingExclusive
  }

  lemma {:induction false} PathInv(settings: Settings, n: nat, steps: seq<Step>, ss: seq<System>, i: nat)
    requires Path(settings, n, steps, ss) && i <= |steps|
    ensures Inv(ss[i])
  {
    if i == 0 {
      SumNone(n);
    } else {
      PathInv(settings, n, steps, ss, i - 1);
      assert Leads(ss[i - 1], steps[i - 1], true, ss[i]);
      hide Inv, Next, CanDo;
      InvStep(ss[i - 1], steps[i - 1].t, steps[i - 1].op);
    }
  }

  /** From a state where no reader is lost, a step loses one exactly if it abandons the readers. */
  lemma LosesExactly(s: System, step: Step, r: System)
    requires Inv(s) && ReadersNotLost(s) && Leads(s, step, true, r)
    ensures ReadersNotLost(r) <==> !Abandons(s, step)
  {
    if step.op.TimeoutExclusive? {
      TimeoutLosesReaders(s, step.t);
      hide Inv, Next, CanDo, ReadersNotLost;
    } else {
      hide Inv, Next, CanDo, ReadersNotLost;
      ReadersStep(s, step.t, step.op);
    }
  }

  lemma {:induction false} NotLostUpTo(settings: Settings, n: nat, steps: seq<Step>, ss: seq<System>, i: nat)
    requires Path(settings, n, steps, ss) && i <= |steps|
    requires forall j :: 0 <= j < i ==> !Abandons(ss[j], steps[j])
    ensures ReadersNotLost(ss[i])
  {
    if i > 0 {
      NotLostUpTo(settings, n, steps, ss, i - 1);
      PathInv(settings, n, steps, ss, i - 1);
      assert Leads(ss[i - 1], steps[i - 1], true, ss[i]);
      hide Inv, Leads, ReadersNotLost, Abandons;
      LosesExactly(ss[i - 1], steps[i - 1], ss[i]);
    }
  }

  /** Main theorem: over a run with timed locks, no parked reader is ever lost exactly if no step abandons the
      readers, that is, if no last waiting writer times out while readers are parked, no writer owns the mutex and
      none has yet to retry. */
  lemma ReadersKeptExactly(settings: Settings, n: nat, steps: seq<Step>, ss: seq<System>)
    requires Path(settings, n, steps, ss)
    ensures (forall i :: 0 <= i <= |steps| ==> ReadersNotLost(ss[i])) <==>
            forall i :: 0 <= i < |steps| ==> !Abandons(ss[i], steps[i])
  {
    if forall i :: 0 <= i <= |steps| ==> ReadersNotLost(ss[i]) {
      forall i | 0 <= i < |steps|
        ensures !Abandons(ss[i], steps[i])
      {
        PathInv(settings, n, steps, ss, i);
        assert Leads(ss[i], steps[i], true, ss[i + 1]);
        hide Inv, Leads, ReadersNotLost, Abandons;
        LosesExactly(ss[i], steps[i], ss[i + 1]);
        assert ReadersNotLost(ss[i + 1]);
      }
    }
    if forall i :: 0 <= i < |steps| ==> !Abandons(ss[i], steps[i]) {
      forall i | 0 <= i <= |steps|
        ensures ReadersNotLost(ss[i])
      {
        NotLostUpTo(settings, n, steps, ss, i);
      }
    }
  }

  lemma Extend(settings: Settings, n: nat, steps: seq<Step>, s: System, step: Step, r: System)
    requires Reached(settings, n, steps, true, s) && Leads(s, step, true, r)
    ensures Reached(settings, n, steps + [step], true, r)
  {
    hide Leads;
    var all := steps + [step];
    assert all[..|all| - 1] == steps && all[|all| - 1] == step;
  }

  /** With one reader in, one writer timing out and one reader queued behind it: the state after k steps. */
  function Timeout(settings: Settings, k: nat): System {
    var m := Mutex(settings, Shared, 0, [1, 0, 0], 1, [], [], false);
    match k
    case 0 => Start(settings, 3)
    case 1 => System(m, [Idle, Idle, Idle])
    case 2 => System(m.(exclusiveWait := [1]), [Idle, ParkedExclusive, Idle])
    case 3 => System(m.(exclusiveWait := [1], sharedWait := [2]), [Idle, ParkedExclusive, ParkedShared])
    case 4 => System(m.(sharedWait := [2]), [Idle, Idle, ParkedShared])
    case _ =>
      System(m.(sharedWait := [2], owner := Free, sharedOwner := [0, 0, 0], sharedCount := 0),
        [Idle, Idle, ParkedShared])
  }

  function TimeoutStep(k: nat): Step {
    match k
    case 0 => Step(0, LockShared)
    case 1 => Step(1, LockExclusive)
    case 2 => Step(2, LockShared)
    case 3 => Step(1, TimeoutExclusive)
    case _ => Step(0, UnlockShared(0))
  }

  lemma TimeoutLeadsIn(settings: Settings, k: nat)
    requires settings.rw && k < 3
    ensures Leads(Timeout(settings, k), TimeoutStep(k), true, Timeout(settings, k + 1))
  {
    if k == 0 {
      assert Next(Timeout(settings, 0), 0, LockShared).mutex.sharedOwner == [1, 0, 0];
    }
  }

  lemma TimeoutLeadsOut(settings: Settings, k: nat)
    requires settings.rw && 3 <= k < 5
    ensures Leads(Timeout(settings, k), TimeoutStep(k), true, Timeout(settings, k + 1))
  {
    if k == 4 {
      assert Next(Timeout(settings, 4), 0, UnlockShared(0)).mutex.sharedOwner == [0, 0, 0];
    }
  }

  function TimeoutSteps(k: nat): seq<Step> {
    if k == 0 then [] else TimeoutSteps(k - 1) + [TimeoutStep(k - 1)]
  }

  lemma StartReached(settings: Settings)
    ensures Reached(settings, 3, [], true, Start(settings, 3))
  {
  }

  lemma {:induction false} TimeoutReached(settings: Settings, k: nat)
    requires settings.rw && k <= 5
    ensures Reached(settings, 3, TimeoutSteps(k), true, Timeout(settings, k))
  {
    hide Leads, Reached, TimeoutStep;
    if k == 0 {
      StartReached(settings);
    } else {
      hide Timeout;
      TimeoutReached(settings, k - 1);
      if k <= 3 {
        TimeoutLeadsIn(settings, k - 1);
      } else {
        TimeoutLeadsOut(settings, k - 1);
      }
      Extend(settings, 3, TimeoutSteps(k - 1), Timeout(settings, k - 1), TimeoutStep(k - 1), Timeout(settings, k));
    }
  }

  /** With timed locks a reader can be parked on a mutex that nobody holds or waits for: thread 0 reads, thread 1
      waits to write, thread 2 queues behind it, thread 1 times out, and thread 0 wakes only writers. */
  lemma StrandedReader(settings: Settings)
    requires settings.rw
    ensures exists steps, s ::
              Reached(settings, 3, steps, true, s) && s.mutex.owner == Free && s.pcs == [Idle, Idle, ParkedShared]
  {
    var s := Timeout(settings, 5);
    assert s.mutex.owner == Free && s.pcs == [Idle, Idle, ParkedShared];
    hide *;
    TimeoutReached(settings, 5);
    assert Reached(settings, 3, TimeoutSteps(5), true, s);
  }

  // ---- the object

  /** generic_mutex_data_impl, with its RL_VERIFY checks as assertions. Each method runs up to the next point
      where the thread parks or returns; `unparked` are the threads it makes runnable. */
  class MutexData {
    const settings: Settings
    const exclusiveWaitset: WaitSet
    const sharedWaitset: WaitSet
    const sharedOwner: array<nat>
    var owner: Owner
    var recursion: nat
    var sharedCount: nat
    var tryLockFailed: bool

    ghost predicate Apart()
    {
      && exclusiveWaitset != sharedWaitset && exclusiveWaitset.slots != sharedWaitset.slots
      && sharedOwner != exclusiveWaitset.slots && sharedOwner != sharedWaitset.slots
      && exclusiveWaitset.slots.Length == sharedOwner.Length == sharedWaitset.slots.Length
    }

    ghost predicate Valid()
      reads this, sharedOwner, exclusiveWaitset, sharedWaitset, exclusiveWaitset.slots, sharedWaitset.slots
    {
      && Apart() && exclusiveWaitset.Valid() && sharedWaitset.Valid()
      && Owned(View(), sharedOwner.Length)
      && Distinct(exclusiveWaitset.Contents()) && Distinct(sharedWaitset.Contents())
      && (forall x :: x in exclusiveWaitset.Contents() ==> x < sharedOwner.Length)
      && (forall x :: x in sharedWaitset.Contents() ==> x < sharedOwner.Length)
    }

    ghost function View(): Mutex
      reads this, sharedOwner, exclusiveWaitset, sharedWaitset, exclusiveWaitset.slots, sharedWaitset.slots
      requires exclusiveWaitset.Valid() && sharedWaitset.Valid()
    {
      Mutex(settings, owner, recursion, sharedOwner[..], sharedCount, exclusiveWaitset.Contents(),
        sharedWaitset.Contents(), tryLockFailed)
    }

    constructor (settings: Settings, threads: nat)
      ensures Valid() && View() == Start(settings, threads).mutex
    {
      this.settings := settings;
      exclusiveWaitset := new WaitSet(threads);
      sharedWaitset := new WaitSet(threads);
      sharedOwner := new nat[threads](_ => 0);
      owner, recursion, sharedCount, tryLockFailed := Free, 0, 0, false;
      new;
      SumNone(threads);
      assert sharedOwner[..] == seq(threads, u => 0);
    }

    /** A thread that may call: known, and not parked here. */
    ghost predicate Caller(t: nat)
      reads this, exclusiveWaitset, sharedWaitset, exclusiveWaitset.slots, sharedWaitset.slots
      requires exclusiveWaitset.Valid() && sharedWaitset.Valid()
    {
      t < sharedOwner.Length && t !in exclusiveWaitset.Contents() && t !in sharedWaitset.Contents()
    }

    method LockExclusiveLoop(t: nat) returns (outcome: Outcome, sync: Sync)
      requires Valid() && Caller(t) && !Holds(View(), t)
      modifies this, exclusiveWaitset, exclusiveWaitset.slots
      ensures Valid() && Effect(View(), outcome, sync, []) == Do(old(View()), t, RetryExclusive)
    {
      ghost var was := View();
      OwnedStep(was, sharedOwner.Length, t, RetryExclusive);
      sync := NoSync;
      if owner == Free {
        assert recursion == 0;
        sync := Acquire;
        recursion := 1;
        owner := Exclusive(t);
        outcome := Acquired;
      } else {
        assert owner != Exclusive(t);
        RoomFor(exclusiveWaitset.Contents(), sharedOwner.Length, t);
        exclusiveWaitset.Enter(t);
        outcome := Parks;
      }
    }

    /** One more share for t. */
    method AddShare(t: nat)
      requires Valid() && t < sharedOwner.Length && !owner.Exclusive?
               && (settings.sharedRecursive || sharedOwner[t] == 0)
      modifies this`sharedCount, this`owner, sharedOwner
      ensures Valid() && View() == EnterShared(old(View()), t)
    {
      ghost var was := View();
      OwnedEnter(was, sharedOwner.Length, t);
      sharedOwner[t] := sharedOwner[t] + 1;
      sharedCount := sharedCount + 1;
      owner := Shared;
      assert sharedOwner[..] == was.sharedOwner[t := was.sharedOwner[t] + 1];
    }

    method LockSharedLoop(t: nat) returns (outcome: Outcome, sync: Sync)
      requires Valid() && Caller(t) && !Holds(View(), t)
      modifies this, sharedOwner, sharedWaitset, sharedWaitset.slots
      ensures Valid() && Effect(View(), outcome, sync, []) == Do(old(View()), t, RetryShared)
    {
      ghost var was := View();
      HoldersCount(was, sharedOwner.Length);
      sync := NoSync;
      if owner == Free || (owner == Shared && exclusiveWaitset.size == 0) {
        sync := Acquire;
        AddShare(t);
        outcome := Acquired;
      } else {
        assert owner != Exclusive(t);
        RoomFor(sharedWaitset.Contents(), sharedOwner.Length, t);
        sharedWaitset.Enter(t);
        outcome := Parks;
      }
    }

    method LockExclusive(t: nat) returns (outcome: Outcome, sync: Sync)
      requires Valid() && Caller(t)
      modifies this, exclusiveWaitset, exclusiveWaitset.slots
      ensures Valid() && Effect(View(), outcome, sync, []) == Do(old(View()), t, Op.LockExclusive)
    {
      sync := NoSync;
      if owner == Shared && sharedOwner[t] != 0 {
        return Misuse(ReadToWriteUpgrade), sync;
      }
      if owner == Exclusive(t) {
        if !settings.exclusiveRecursive {
          return Misuse(RecursionOnNonrecursive), sync;
        }
        recursion := recursion + 1;
        return Acquired, sync;
      }
      HoldersCount(View(), sharedOwner.Length);
      outcome, sync := LockExclusiveLoop(t);
    }

    /** A timed lock_exclusive that is resumed by the timeout. */
    method TimedOut(t: nat, ghost at: nat) returns (outcome: Outcome, sync: Sync)
      requires Valid() && t in exclusiveWaitset.Contents() && at == Index(exclusiveWaitset.Contents(), t)
      requires t < sharedOwner.Length
      modifies exclusiveWaitset, exclusiveWaitset.slots
      ensures Valid() && Effect(View(), outcome, sync, []) == Do(old(View()), t, TimeoutExclusive)
    {
      exclusiveWaitset.Remove(t, at);
      return Refused, Acquire;
    }

    method TryLockExclusive(t: nat, fails: bool) returns (outcome: Outcome, sync: Sync)
      requires Valid() && Caller(t)
      modifies this
      ensures Valid() && Effect(View(), outcome, sync, []) == Do(old(View()), t, Op.TryLockExclusive(fails))
    {
      sync := NoSync;
      if owner == Shared && sharedOwner[t] != 0 {
        return Misuse(ReadToWriteUpgrade), sync;
      }
      if owner == Exclusive(t) {
        if !settings.exclusiveRecursive {
          return Misuse(RecursionOnNonrecursive), sync;
        }
        recursion := recursion + 1;
        return Acquired, sync;
      }
      if owner == Free {
        assert recursion == 0;
        if settings.failingTryLock && !tryLockFailed && fails {
          tryLockFailed := true;
          return Refused, sync;
        }
        sync := Acquire;
        recursion := 1;
        owner := Exclusive(t);
        return Acquired, sync;
      }
      return Refused, sync;
    }

    method UnlockExclusive(t: nat, pick: nat) returns (outcome: Outcome, sync: Sync, unparked: seq<nat>)
      requires Valid() && t < sharedOwner.Length && (exclusiveWaitset.size > 0 ==> pick < exclusiveWaitset.size)
      modifies this, exclusiveWaitset, exclusiveWaitset.slots, sharedWaitset, sharedWaitset.slots
      ensures Valid() && Effect(View(), outcome, sync, unparked) == Do(old(View()), t, Op.UnlockExclusive(pick))
    {
      unparked := [];
      sync := NoSync;
      if owner != Exclusive(t) {
        return Misuse(UnlockingWithoutOwnership), sync, unparked;
      }
      recursion := recursion - 1;
      if recursion != 0 {
        assert settings.exclusiveRecursive;
        return Released, sync, unparked;
      }
      sync := Release;
      owner := Free;
      var anyone := exclusiveWaitset.size != 0;
      unparked := exclusiveWaitset.UnparkOne(pick);
      if !anyone {
        unparked := sharedWaitset.UnparkAll();
      }
      outcome := Released;
    }

    method LockShared(t: nat) returns (outcome: Outcome, sync: Sync)
      requires Valid() && Caller(t)
      modifies this, sharedOwner, sharedWaitset, sharedWaitset.slots
      ensures Valid() && Effect(View(), outcome, sync, []) == Do(old(View()), t, Op.LockShared)
    {
      sync := NoSync;
      ghost var was := View();
      if owner == Exclusive(t) {
        return Misuse(WriteToReadUpgrade), sync;
      }
      if owner == Shared && sharedOwner[t] != 0 {
        if !settings.sharedRecursive {
          return Misuse(RecursionOnNonrecursive), sync;
        }
        AddShare(t);
        return Acquired, sync;
      }
      HoldersCount(was, sharedOwner.Length);
      outcome, sync := LockSharedLoop(t);
    }

    method TryLockShared(t: nat, fails: bool) returns (outcome: Outcome, sync: Sync)
      requires Valid() && Caller(t)
      modifies this, sharedOwner
      ensures Valid() && Effect(View(), outcome, sync, []) == Do(old(View()), t, Op.TryLockShared(fails))
    {
      sync := NoSync;
      ghost var was := View();
      HoldersCount(was, sharedOwner.Length);
      if owner == Exclusive(t) {
        return Misuse(WriteToReadUpgrade), sync;
      }
      if owner == Shared && sharedOwner[t] != 0 {
        if !settings.sharedRecursive {
          return Misuse(RecursionOnNonrecursive), sync;
        }
      } else if owner == Free || (owner == Shared && exclusiveWaitset.size == 0) {
        if settings.failingTryLock && !tryLockFailed && fails {
          tryLockFailed := true;
          return Refused, sync;
        }
        sync := Acquire;
      } else {
        return Refused, sync;
      }
      AddShare(t);
      outcome := Acquired;
    }

    method UnlockShared(t: nat, pick: nat) returns (outcome: Outcome, sync: Sync, unparked: seq<nat>)
      requires Valid() && t < sharedOwner.Length && (exclusiveWaitset.size > 0 ==> pick < exclusiveWaitset.size)
      modifies this, sharedOwner, exclusiveWaitset, exclusiveWaitset.slots
      ensures Valid() && Effect(View(), outcome, sync, unparked) == Do(old(View()), t, Op.UnlockShared(pick))
    {
      unparked := [];
      sync := NoSync;
      ghost var was := View();
      OwnedLeave(was, sharedOwner.Length, t, pick);
      if owner != Shared || sharedOwner[t] == 0 {
        return Misuse(UnlockingWithoutOwnership), sync, unparked;
      }
      assert sharedCount != 0;
      sharedOwner[t] := sharedOwner[t] - 1;
      sharedCount := sharedCount - 1;
      assert sharedOwner[..] == was.sharedOwner[t := was.sharedOwner[t] - 1];
      outcome := Released;
      if sharedCount != 0 {
        if sharedOwner[t] != 0 {
          assert settings.sharedRecursive;
        } else {
          sync := Release;
        }
        return;
      }
      sync := Release;
      owner := Free;
      unparked := exclusiveWaitset.UnparkOne(pick);
    }

    method UnlockExclusiveOrShared(t: nat, pick: nat) returns (outcome: Outcome, sync: Sync, unparked: seq<nat>)
      requires Valid() && t < sharedOwner.Length && (exclusiveWaitset.size > 0 ==> pick < exclusiveWaitset.size)
      modifies this, sharedOwner, exclusiveWaitset, exclusiveWaitset.slots, sharedWaitset, sharedWaitset.slots
      ensures Valid() && Effect(View(), outcome, sync, unparked)
                         == Do(old(View()), t, if old(owner) == Exclusive(t) then Op.UnlockExclusive(pick)
                           else Op.UnlockShared(pick))
    {
      if owner == Exclusive(t) {
        outcome, sync, unparked := UnlockExclusive(t, pick);
      } else {
        outcome, sync, unparked := UnlockShared(t, pick);
      }
    }
  }
}
