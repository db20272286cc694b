/** The work-stealing deque with resizing: one owner pushes and pops at the tail, any number of thieves
    steal at the head. Sequentially consistent interleaving, one shared access per step. */
module WorkStealing {

  type Item = int

  // ---- indices and the mask

  /** Bitwise and. */
  function And(a: nat, b: nat): nat {
    if a == 0 || b == 0 then 0 else 2 * And(a / 2, b / 2) + (a % 2) * (b % 2)
  }

  predicate AllOnes(mask: nat) {
    mask == 0 || (mask % 2 == 1 && AllOnes(mask / 2))
  }

  function Mod(i: nat, n: nat): (r: nat)
    requires n > 0
    ensures r < n
  {
    i % n
  }

  /** Masking an index takes it modulo the array size. */
  lemma {:induction false} AndIsModulo(x: nat, mask: nat)
    requires AllOnes(mask)
    ensures And(x, mask) == Mod(x, mask + 1)
  {
    if mask == 0 {
      ModOne(x);
    } else {
      hide Mod;
      AndIsModulo(x / 2, mask / 2);
      HalvesModulo(x, mask / 2 + 1);
      assert 2 * (mask / 2 + 1) == mask + 1;
      AndUnfold(x, mask);
    }
  }

  lemma AndUnfold(x: nat, mask: nat)
    requires mask % 2 == 1
    ensures And(x, mask) == 2 * And(x / 2, mask / 2) + x % 2
  {
  }

  lemma ModOne(x: nat)
    ensures Mod(x, 1) == 0
  {
  }

  lemma HalvesModulo(x: nat, n: nat)
    requires n > 0
    ensures Mod(x, 2 * n) == 2 * Mod(x / 2, n) + x % 2
  {
    var q, r := x / 2 / n, x / 2 % n;
    assert x / 2 == n * q + r;
    assert n * q * 2 == (2 * n) * q;
    assert x == (2 * n) * q + (2 * r + x % 2);
    Unique(x, 2 * n, q, 2 * r + x % 2);
  }

  lemma Unique(x: nat, m: nat, q: nat, r: nat)
    requires m > 0 && r < m && x == m * q + r
    ensures x % m == r
  {
    Quotient(m, x / m, q, x % m, r);
  }

  lemma Quotient(m: nat, p: nat, q: nat, a: nat, b: nat)
    requires a < m && b < m && m * p + a == m * q + b
    ensures p == q && a == b
  {
    if p < q {
      assert m * (q - p) >= m by { Grows(m, q - p); }
    } else if q < p {
      assert m * (p - q) >= m by { Grows(m, p - q); }
    }
  }

  lemma {:induction false} Grows(m: nat, d: nat)
    requires d >= 1
    ensures m * d >= m
  {
    if d > 1 {
      Grows(m, d - 1);
      assert m * d == m * (d - 1) + m;
    }
  }

  /** Indices closer than the array size have different slots. */
  lemma SlotsDiffer(i: nat, j: nat, n: nat)
    requires 0 < n && i < j < i + n
    ensures Mod(i, n) != Mod(j, n)
  {
    var p, q := i / n, j / n;
    assert i == n * p + i % n && j == n * q + j % n;
    if p < q {
      Grows(n, q - p);
      assert n * q == n * p + n * (q - p);
    } else {
      Monotone(n, q, p);
    }
  }

  lemma {:induction false} Monotone(n: nat, q: nat, p: nat)
    requires q <= p
    ensures n * q <= n * p
  {
    if q < p {
      Monotone(n, q, p - 1);
      assert n * p == n * (p - 1) + n;
    }
  }

  // ---- the state

  /** Where the owner is. `x` in PopRead is what the pop is going to return. */
  datatype Owner =
    | Idle
    // push
    | PushLoadHead(item: Item, t: nat)
    | PushWrite(item: Item, t: nat)
    | PushPublish(item: Item, t: nat)
    | PushLock(item: Item, t: nat)
    | SlowLoadHead(item: Item, t: nat)
    | SlowCountTail(item: Item, t: nat, h: nat)
    | SlowCountHead(item: Item, t: nat, h: nat, t2: nat)
    | SlowCopy(item: Item, h: nat, count: nat, copy: seq<Item>, i: nat)
    | SlowStoreHead(item: Item, count: nat)
    | SlowStoreTail(item: Item, count: nat)
    | SlowStoreMask(item: Item, count: nat)
    | SlowWrite(item: Item, t: nat)
    | SlowPublish(item: Item, t: nat)
    | SlowUnlock
    // pop
    | PopStoreTail(t: nat)
    | PopLoadHead(t: nat)
    | PopRead(t: nat, x: Item)
    | PopLock(t: nat)
    | PopLoadHeadLocked(t: nat)
    | PopReadLocked(t: nat, x: Item)
    | PopRestore(t: nat)
    | PopUnlock(x: Item)
    | PopUnlockEmpty

  datatype Thief =
    | Away
    | StealLoadHead
    | StealStoreHead(h: nat)
    | StealLoadTail(h: nat)
    | StealRead(h: nat, x: Item)
    | StealRestore(h: nat)
    | StealUnlock(x: Item)
    | StealUnlockEmpty

  datatype Holder = Nobody | TheOwner | AThief(id: nat)

  /** The shared fields, the foreign lock and the program counters; `items`, `pushed` and `returned` are bookkeeping:
      the resident items by the linearised operations, and all items ever pushed and returned. */
  datatype State = State(
    head: nat, tail: nat, mask: nat, arr: seq<Item>, lock: Holder,
    owner: Owner, thieves: seq<Thief>,
    items: seq<Item>, pushed: multiset<Item>, returned: multiset<Item>)

  function Start(thieves: nat): State {
    State(0, 0, 1, [0, 0], Nobody, Idle, seq(thieves, i => Away), [], multiset{}, multiset{})
  }

  function Slot(s: State, i: nat): nat {
    And(i, s.mask)
  }

  // ---- steps of the owner

  datatype Command = Push(item: Item) | Pop

  /** The next step of the owner; it stays where it is while somebody else holds the lock. */
  function OwnerStep(s: State, c: Command): State {
    match s.owner
    case Idle => Call(s, c)
    case PushLoadHead(item, t) => s.(owner := if t < s.head + s.mask then PushWrite(item, t) else PushLock(item, t))
    case PushWrite(item, t) => s.(arr := Write(s.arr, Slot(s, t), item), owner := PushPublish(item, t))
    case PushPublish(item, t) => Publish(s, item, t).(owner := Idle)
    case PushLock(item, t) => if s.lock != Nobody then s else s.(lock := TheOwner, owner := SlowLoadHead(item, t))
    case SlowLoadHead(item, t) => s.(owner := SlowCountTail(item, t, s.head))
    case SlowCountTail(item, t, h) => s.(owner := SlowCountHead(item, t, h, s.tail))
    case SlowCountHead(item, t, h, t2) =>
      var count := if t2 >= s.head then t2 - s.head else 0;
      s.(owner := if count >= s.mask then SlowCopy(item, h, count, seq(2 * |s.arr|, i => 0), 0) else SlowWrite(item, t))
    case SlowCopy(item, h, count, copy, i) =>
      if i < count then s.(owner := SlowCopy(item, h, count, Write(copy, i, Read(s.arr, Slot(s, i + h))), i + 1))
      else s.(arr := copy, owner := SlowStoreHead(item, count))
    case SlowStoreHead(item, count) => s.(head := 0, owner := SlowStoreTail(item, count))
    case SlowStoreTail(item, count) => s.(tail := count, owner := SlowStoreMask(item, count))
    case SlowStoreMask(item, count) => s.(mask := s.mask * 2 + 1, owner := SlowWrite(item, count))
    case SlowWrite(item, t) => s.(arr := Write(s.arr, Slot(s, t), item), owner := SlowPublish(item, t))
    case SlowPublish(item, t) => Publish(s, item, t).(owner := SlowUnlock)
    case SlowUnlock => s.(lock := Nobody, owner := Idle)
    case PopStoreTail(t) => s.(tail := t, owner := PopLoadHead(t))
    case PopLoadHead(t) => if s.head <= t then TakeLast(s, t, false) else s.(owner := PopLock(t))
    case PopRead(t, x) => Returns(s, Read(s.arr, Slot(s, t))).(owner := Idle)
    case PopLock(t) => if s.lock != Nobody then s else s.(lock := TheOwner, owner := PopLoadHeadLocked(t))
    case PopLoadHeadLocked(t) => if s.head <= t then TakeLast(s, t, true) else s.(owner := PopRestore(t))
    case PopReadLocked(t, x) => s.(owner := PopUnlock(Read(s.arr, Slot(s, t))))
    case PopRestore(t) => s.(tail := t + 1, owner := PopUnlockEmpty)
    case PopUnlock(x) => Returns(s, x).(lock := Nobody, owner := Idle)
    case PopUnlockEmpty => s.(lock := Nobody, owner := Idle)
  }

  /** push and pop begin by loading the tail; pop of tail 0 returns false. */
  function Call(s: State, c: Command): State {
    match c
    case Push(item) => s.(owner := PushLoadHead(item, s.tail))
    case Pop => if s.tail == 0 then s else s.(owner := PopStoreTail(s.tail - 1))
  }

  function Read(a: seq<Item>, i: nat): Item {
    if i < |a| then a[i] else 0
  }

  function Write(a: seq<Item>, i: nat, x: Item): (r: seq<Item>)
    ensures |r| == |a|
  {
    if i < |a| then a[i := x] else a
  }

  /** The push takes effect. */
  function Publish(s: State, item: Item, t: nat): State {
    s.(tail := t + 1, items := s.items + [item], pushed := s.pushed + multiset{item})
  }

  /** The pop takes effect: the last item is its own from now on. */
  function TakeLast(s: State, t: nat, locked: bool): State {
    if s.items == [] then s
    else
      var x := s.items[|s.items| - 1];
      s.(items := s.items[..|s.items| - 1], owner := if locked then PopReadLocked(t, x) else PopRead(t, x))
  }

  function Returns(s: State, x: Item): State {
    s.(returned := s.returned + multiset{x})
  }

  // ---- steps of a thief

  function SetThief(s: State, i: nat, p: Thief): State
    requires i < |s.thieves|
  {
    s.(thieves := s.thieves[i := p])
  }

  function ThiefStep(s: State, i: nat): State
    requires i < |s.thieves|
  {
    match s.thieves[i]
    case Away => if s.lock != Nobody then s else SetThief(s.(lock := AThief(i)), i, StealLoadHead)
    case StealLoadHead => SetThief(s, i, StealStoreHead(s.head))
    case StealStoreHead(h) => SetThief(s.(head := h + 1), i, StealLoadTail(h))
    case StealLoadTail(h) =>
      if h < s.tail then
        if s.items == [] then s
        else SetThief(s.(items := s.items[1..]), i, StealRead(h, s.items[0]))
      else SetThief(s, i, StealRestore(h))
    case StealRead(h, x) => SetThief(s, i, StealUnlock(Read(s.arr, Slot(s, h))))
    case StealRestore(h) => SetThief(s.(head := h), i, StealUnlockEmpty)
    case StealUnlock(x) => SetThief(Returns(s, x).(lock := Nobody), i, Away)
    case StealUnlockEmpty => SetThief(s.(lock := Nobody), i, Away)
  }

  // ---- the invariant

  predicate Locked(o: Owner) {
    o.SlowLoadHead? || o.SlowCountTail? || o.SlowCountHead? || o.SlowCopy? || o.SlowStoreHead? || o.SlowStoreTail?
      || o.SlowStoreMask?
    || o.SlowWrite? || o.SlowPublish? || o.SlowUnlock?
    || o.PopLoadHeadLocked? || o.PopReadLocked? || o.PopRestore? || o.PopUnlock? || o.PopUnlockEmpty?
  }

  /** The lock is held by whoever is between lock and unlock, so at most one thief is under way. */
  ghost predicate LockInv(s: State) {
    && (s.lock == TheOwner <==> Locked(s.owner))
    && (forall i :: 0 <= i < |s.thieves| ==> (s.lock == AThief(i) <==> s.thieves[i] != Away))
    && (s.lock.AThief? ==> s.lock.id < |s.thieves|)
  }

  /** The thief under way, if any. */
  function Active(s: State): Thief {
    if s.lock.AThief? && s.lock.id < |s.thieves| then s.thieves[s.lock.id] else Away
  }

  /** The head has been advanced for a steal that is not finished. */
  predicate Advanced(p: Thief) {
    p.StealLoadTail? || p.StealRead? || p.StealRestore?
  }

  /** The tail has been lowered for a pop that is not finished. */
  predicate Lowered(o: Owner) {
    o.PopLoadHead? || o.PopRead? || o.PopLock? || o.PopLoadHeadLocked? || o.PopReadLocked? || o.PopRestore?
  }

  /** The slots from here on must keep their contents. */
  function Low(s: State): int {
    if Advanced(Active(s)) then s.head - 1 else s.head
  }

  function High(s: State): int {
    if Lowered(s.owner) then s.tail + 1 else s.tail
  }

  function StealFlight(p: Thief): seq<Item> {
    if p.StealRead? then [p.x] else []
  }

  function PopFlight(o: Owner): seq<Item> {
    if o.PopRead? || o.PopReadLocked? then [o.x] else []
  }

  /** What the array holds: the item being stolen, the resident items, the item being popped. */
  function Window(s: State): seq<Item> {
    StealFlight(Active(s)) + s.items + PopFlight(s.owner)
  }

  ghost predicate Stored(arr: seq<Item>, low: nat, w: seq<Item>) {
    |w| <= |arr| && forall j: nat :: low <= j < low + |w| ==> arr[Mod(j, |arr|)] == w[j - low]
  }

  /** Between installing the new array and its mask. */
  predicate Installing(o: Owner) {
    o.SlowStoreHead? || o.SlowStoreTail? || o.SlowStoreMask?
  }

  /** The array, the indices and the resident items agree. */
  ghost predicate ArrayInv(s: State) {
    && AllOnes(s.mask) && s.mask >= 1
    && if Installing(s.owner) then
         && |s.arr| == 2 * (s.mask + 1) && Window(s) == s.items && |s.items| <= s.mask + 1 && Stored(s.arr, 0, s.items)
       else
         && |s.arr| == s.mask + 1
         && 0 <= Low(s) && Low(s) + |Window(s)| == High(s) && Stored(s.arr, Low(s), Window(s))
  }

  ghost predicate ThiefInv(s: State) {
    match Active(s)
    case StealStoreHead(h) => s.head == h
    case StealLoadTail(h) => s.head == h + 1
    case StealRead(h, _) => s.head == h + 1
    case StealRestore(h) => s.head == h + 1
    case _ => true
  }

  /** What the owner has already found out. */
  ghost predicate OwnerInv(s: State) {
    match s.owner
    case PushLoadHead(_, t) => s.tail == t
    case PushWrite(_, t) => s.tail == t && t <= Low(s) + s.mask
    case PushPublish(item, t) => s.tail == t && t <= Low(s) + s.mask && |s.arr| > 0 && s.arr[Mod(t, |s.arr|)] == item
    case PushLock(_, t) => s.tail == t
    case SlowLoadHead(_, t) => s.tail == t
    case SlowCountTail(_, t, h) => s.tail == t && s.head == h
    case SlowCountHead(_, t, h, t2) => s.tail == t == t2 && s.head == h
    case SlowCopy(_, h, count, copy, i) =>
      && s.head == h && count == |s.items| && i <= count && i <= |s.items| && |copy| == 2 * |s.arr| && i <= |copy|
      && copy[..i] == s.items[..i]
    case SlowStoreHead(_, count) => count == |s.items|
    case SlowStoreTail(_, count) => count == |s.items| && s.head == 0
    case SlowStoreMask(_, count) => count == |s.items| && s.head == 0 && s.tail == count
    case SlowWrite(_, t) => s.tail == t && t <= Low(s) + s.mask
    case SlowPublish(item, t) => s.tail == t && t <= Low(s) + s.mask && |s.arr| > 0 && s.arr[Mod(t, |s.arr|)] == item
    case PopStoreTail(t) => s.tail == t + 1
    case PopLoadHead(t) => s.tail == t
    case PopRead(t, _) => s.tail == t
    case PopLock(t) => s.tail == t
    case PopLoadHeadLocked(t) => s.tail == t
    case PopReadLocked(t, _) => s.tail == t
    case PopRestore(t) => s.tail == t && s.items == []
    case _ => true
  }

  function Done(s: State): multiset<Item> {
    s.returned + multiset(s.items) + multiset(PopFlight(s.owner)) + multiset(StealFlight(Active(s)))
    + (if s.owner.PopUnlock? then multiset{s.owner.x} else multiset{})
    + (if Active(s).StealUnlock? then multiset{Active(s).x} else multiset{})
  }

  ghost predicate Inv(s: State) {
    LockInv(s) && ArrayInv(s) && ThiefInv(s) && OwnerInv(s) && s.pushed == Done(s)
  }

  // ---- the owner keeps the invariant

  lemma SlotIs(s: State, i: nat)
    requires AllOnes(s.mask) && |s.arr| == s.mask + 1
    ensures Slot(s, i) == Mod(i, |s.arr|)
  {
    AndIsModulo(i, s.mask);
  }

  /** A step that only moves the owner on, within the same phase. */
  lemma OwnerMoves(s: State, o: Owner)
    requires Inv(s) && Locked(o) == Locked(s.owner) && Lowered(o) == Lowered(s.owner)
             && PopFlight(o) == PopFlight(s.owner)
    requires !Installing(o) && !Installing(s.owner) && !o.PopUnlock? && !s.owner.PopUnlock?
    ensures var r := s.(owner := o);
            LockInv(r) && ArrayInv(r) && ThiefInv(r) && r.pushed == Done(r) && Low(r) == Low(s)
  {
    hide AllOnes, Stored;
  }

  lemma OwnerCall(s: State, c: Command)
    requires Inv(s) && s.owner == Idle
    ensures Inv(Call(s, c))
  {
    OwnerMoves(s, Call(s, c).owner);
    hide LockInv, ArrayInv, ThiefInv, Done;
  }

  /** Steps that only look. */
  lemma OwnerLooks(s: State, c: Command)
    requires Inv(s) && (s.owner.PushLoadHead? || s.owner.SlowLoadHead? || s.owner.SlowCountTail?)
    ensures Inv(OwnerStep(s, c))
  {
    LowIsHead(s);
    hide LockInv, ArrayInv, ThiefInv, Done, Low;
    OwnerMoves(s, OwnerStep(s, c).owner);
  }

  lemma LowIsHead(s: State)
    ensures s.head - 1 <= Low(s) <= s.head
    ensures s.lock == TheOwner ==> Low(s) == s.head
  {
  }

  lemma StoreKeeps(arr: seq<Item>, low: nat, w: seq<Item>, i: nat, x: Item)
    requires Stored(arr, low, w) && |arr| > 0 && low + |w| <= i < low + |arr|
    ensures Stored(arr[Mod(i, |arr|) := x], low, w)
  {
    hide Mod;
    forall j: nat | low <= j < low + |w|
      ensures Mod(j, |arr|) != Mod(i, |arr|)
    {
      SlotsDiffer(j, i, |arr|);
    }
  }

  lemma StoredGrows(arr: seq<Item>, low: nat, w: seq<Item>, x: Item)
    requires Stored(arr, low, w) && |w| < |arr| && arr[Mod(low + |w|, |arr|)] == x
    ensures Stored(arr, low, w + [x])
  {
    hide Mod;
  }

  /** The owner moves on; the thieves, the lock and the head stay. */
  lemma Unmoved(s: State, r: State)
    requires r.thieves == s.thieves && r.lock == s.lock && r.head == s.head
    ensures Active(r) == Active(s) && Low(r) == Low(s)
    ensures LockInv(s) && Locked(r.owner) == Locked(s.owner) ==> LockInv(r)
    ensures ThiefInv(s) ==> ThiefInv(r)
  {
  }

  lemma ArrayWrite(s: State, o: Owner)
    requires ArrayInv(s) && (s.owner.PushWrite? || s.owner.SlowWrite?) && (o.PushPublish? || o.SlowPublish?)
    requires s.tail == s.owner.t <= Low(s) + s.mask
    ensures var r := s.(arr := Write(s.arr, Slot(s, s.owner.t), s.owner.item), owner := o);
            ArrayInv(r) && r.arr[Mod(s.owner.t, |r.arr|)] == s.owner.item
  {
    var r := s.(arr := Write(s.arr, Slot(s, s.owner.t), s.owner.item), owner := o);
    SlotIs(s, s.owner.t);
    assert Active(r) == Active(s) && Low(r) == Low(s);
    hide AllOnes, And, Mod, Stored, Active, Low, Slot;
    assert Window(r) == Window(s);
    StoreKeeps(s.arr, Low(s), Window(s), s.owner.t, s.owner.item);
  }

  lemma OwnerWrites(s: State)
    requires Inv(s) && s.owner.PushWrite?
    ensures Inv(s.(arr := Write(s.arr, Slot(s, s.owner.t), s.owner.item),
            owner := PushPublish(s.owner.item, s.owner.t)))
  {
    hide LockInv, ArrayInv, ThiefInv, Done, Low, Active, Slot, Write, Mod;
    var r := s.(arr := Write(s.arr, Slot(s, s.owner.t), s.owner.item), owner := PushPublish(s.owner.item, s.owner.t));
    ArrayWrite(s, r.owner);
    Unmoved(s, r);
    DoneSameOwner(s, r);
  }

  lemma OwnerWritesSlow(s: State)
    requires Inv(s) && s.owner.SlowWrite?
    ensures Inv(s.(arr := Write(s.arr, Slot(s, s.owner.t), s.owner.item),
            owner := SlowPublish(s.owner.item, s.owner.t)))
  {
    hide LockInv, ArrayInv, ThiefInv, Done, Low, Active, Slot, Write, Mod;
    var r := s.(arr := Write(s.arr, Slot(s, s.owner.t), s.owner.item), owner := SlowPublish(s.owner.item, s.owner.t));
    ArrayWrite(s, r.owner);
    Unmoved(s, r);
    DoneSameOwner(s, r);
  }

  lemma DonePublish(s: State, item: Item, t: nat, o: Owner)
    requires s.pushed == Done(s) && PopFlight(o) == PopFlight(s.owner) == [] && !o.PopUnlock? && !s.owner.PopUnlock?
    ensures var r := Publish(s, item, t).(owner := o); r.pushed == Done(r)
  {
    var r := Publish(s, item, t).(owner := o);
    assert Active(r) == Active(s);
    hide Active, PopFlight, StealFlight;
    assert multiset(s.items + [item]) == multiset(s.items) + multiset{item};
  }

  lemma ArrayPublish(s: State, item: Item, o: Owner)
    requires ArrayInv(s) && !Installing(s.owner) && !Installing(o) && !Lowered(s.owner) && !Lowered(o)
    requires PopFlight(o) == PopFlight(s.owner) == []
    requires s.tail <= Low(s) + s.mask && |s.arr| > 0 && s.arr[Mod(s.tail, |s.arr|)] == item
    ensures ArrayInv(Publish(s, item, s.tail).(owner := o))
  {
    var r := Publish(s, item, s.tail).(owner := o);
    assert Active(r) == Active(s) && Low(r) == Low(s);
    hide AllOnes, Mod, Stored, Active, Low, Installing;
    StoredGrows(s.arr, Low(s), Window(s), item);
    assert Window(r) == Window(s) + [item];
  }

  lemma OwnerPublishes(s: State)
    requires Inv(s) && s.owner.PushPublish?
    ensures Inv(Publish(s, s.owner.item, s.owner.t).(owner := Idle))
  {
    hide LockInv, ArrayInv, ThiefInv, Done, Active;
    Unmoved(s, Publish(s, s.owner.item, s.owner.t).(owner := Idle));
    DonePublish(s, s.owner.item, s.owner.t, Idle);
    ArrayPublish(s, s.owner.item, Idle);
  }

  lemma OwnerPublishesSlow(s: State)
    requires Inv(s) && s.owner.SlowPublish?
    ensures Inv(Publish(s, s.owner.item, s.owner.t).(owner := SlowUnlock))
  {
    hide LockInv, ArrayInv, ThiefInv, Done, Active;
    Unmoved(s, Publish(s, s.owner.item, s.owner.t).(owner := SlowUnlock));
    DonePublish(s, s.owner.item, s.owner.t, SlowUnlock);
    ArrayPublish(s, s.owner.item, SlowUnlock);
  }

  /** The lock changes hands between nobody and the owner. */
  lemma LockMoves(s: State, r: State)
    requires LockInv(s) && r.thieves == s.thieves && r.head == s.head && !s.lock.AThief? && !r.lock.AThief?
    requires r.lock == TheOwner <==> Locked(r.owner)
    ensures LockInv(r) && Active(r) == Active(s) == Away && Low(r) == Low(s) && ThiefInv(r)
  {
  }

  /** Taking or giving back the lock, with the result of a pop if there is one. */
  lemma OwnerLocks(s: State, lock: Holder, o: Owner)
    requires Inv(s) && !s.lock.AThief? && !lock.AThief? && (lock == TheOwner <==> Locked(o))
    requires Lowered(o) == Lowered(s.owner) && PopFlight(o) == PopFlight(s.owner) == [] && !Installing(o)
             && !Installing(s.owner) && !o.PopUnlock?
    requires OwnerInv(s.(lock := lock, owner := o))
    ensures var r := s.(lock := lock, owner := o);
            Inv(if s.owner.PopUnlock? then Returns(r, s.owner.x) else r)
  {
    var r := s.(lock := lock, owner := o);
    LockMoves(s, r);
    LockMoves(s, if s.owner.PopUnlock? then Returns(r, s.owner.x) else r);
    hide AllOnes, And, Mod, Stored, Active, Low, LockInv, ThiefInv;
    assert Window(r) == Window(s);
  }

  /** The tail moves while what the tail stands for does not. */
  lemma ArrayTail(s: State, t: nat, o: Owner)
    requires ArrayInv(s) && !Installing(s.owner) && !Installing(o) && PopFlight(o) == PopFlight(s.owner) == []
    requires t + (if Lowered(o) then 1 else 0) == High(s)
    ensures ArrayInv(s.(tail := t, owner := o))
  {
    var r := s.(tail := t, owner := o);
    assert Active(r) == Active(s) && Low(r) == Low(s);
    hide AllOnes, Mod, Stored, Active, Low, Installing, Lowered;
    assert Window(r) == Window(s);
  }

  lemma DoneSameOwner(s: State, r: State)
    requires s.pushed == Done(s) && PopFlight(r.owner) == PopFlight(s.owner) && !s.owner.PopUnlock?
             && !r.owner.PopUnlock?
    requires r.pushed == s.pushed && r.returned == s.returned && r.items == s.items && r.thieves == s.thieves
             && r.lock == s.lock
    ensures r.pushed == Done(r)
  {
    assert Active(r) == Active(s);
  }

  lemma OwnerStoresTail(s: State)
    requires Inv(s) && s.owner.PopStoreTail?
    ensures Inv(s.(tail := s.owner.t, owner := PopLoadHead(s.owner.t)))
  {
    hide LockInv, ArrayInv, ThiefInv, Done, Low, Active;
    var r := s.(tail := s.owner.t, owner := PopLoadHead(s.owner.t));
    Unmoved(s, r);
    ArrayTail(s, s.owner.t, PopLoadHead(s.owner.t));
    DoneSameOwner(s, r);
  }

  lemma OwnerRestores(s: State)
    requires Inv(s) && s.owner.PopRestore?
    ensures Inv(s.(tail := s.owner.t + 1, owner := PopUnlockEmpty))
  {
    hide LockInv, ArrayInv, ThiefInv, Done, Low, Active;
    var r := s.(tail := s.owner.t + 1, owner := PopUnlockEmpty);
    Unmoved(s, r);
    ArrayTail(s, s.owner.t + 1, PopUnlockEmpty);
    DoneSameOwner(s, r);
  }

  /** A pop that finds the head at or below its index finds an item, and takes the last one. */
  lemma PopFinds(s: State)
    requires Inv(s) && (s.owner.PopLoadHead? || s.owner.PopLoadHeadLocked?)
    ensures s.head <= s.owner.t ==> s.items != []
    ensures s.owner.PopLoadHeadLocked? && s.head > s.owner.t ==> s.items == []
  {
    hide AllOnes, And, Mod, Stored;
  }

  lemma DoneTake(s: State, o: Owner)
    requires s.pushed == Done(s) && s.items != [] && PopFlight(s.owner) == [] && !s.owner.PopUnlock? && !o.PopUnlock?
    requires PopFlight(o) == [s.items[|s.items| - 1]]
    ensures var r := s.(items := s.items[..|s.items| - 1], owner := o); r.pushed == Done(r)
  {
    var n := |s.items| - 1;
    var r := s.(items := s.items[..n], owner := o);
    assert Active(r) == Active(s);
    hide Active, PopFlight, StealFlight;
    assert s.items[..n] + [s.items[n]] == s.items;
    assert multiset(s.items) == multiset(s.items[..n]) + multiset([s.items[n]]);
  }

  lemma ArrayTake(s: State, o: Owner)
    requires ArrayInv(s) && s.items != [] && PopFlight(s.owner) == [] && Lowered(s.owner) && Lowered(o)
             && !Installing(s.owner) && !Installing(o)
    requires PopFlight(o) == [s.items[|s.items| - 1]]
    ensures ArrayInv(s.(items := s.items[..|s.items| - 1], owner := o))
  {
    var n := |s.items| - 1;
    var r := s.(items := s.items[..n], owner := o);
    assert Active(r) == Active(s) && Low(r) == Low(s);
    hide AllOnes, Mod, Stored, Active, Low, Installing;
    assert s.items[..n] + [s.items[n]] == s.items;
    assert Window(r) == Window(s);
  }

  lemma OwnerTakes(s: State)
    requires Inv(s) && s.owner.PopLoadHead? && s.head <= s.owner.t
    ensures Inv(TakeLast(s, s.owner.t, false))
  {
    hide LockInv, ArrayInv, ThiefInv, Done, Low, Active;
    PopFinds(s);
    var o := PopRead(s.owner.t, s.items[|s.items| - 1]);
    Unmoved(s, TakeLast(s, s.owner.t, false));
    DoneTake(s, o);
    ArrayTake(s, o);
  }

  lemma OwnerTakesLocked(s: State)
    requires Inv(s) && s.owner.PopLoadHeadLocked? && s.head <= s.owner.t
    ensures Inv(TakeLast(s, s.owner.t, true))
  {
    hide LockInv, ArrayInv, ThiefInv, Done, Low, Active;
    PopFinds(s);
    var o := PopReadLocked(s.owner.t, s.items[|s.items| - 1]);
    Unmoved(s, TakeLast(s, s.owner.t, true));
    DoneTake(s, o);
    ArrayTake(s, o);
  }

  lemma OwnerGivesUp(s: State)
    requires Inv(s) && s.owner.PopLoadHead?
    ensures Inv(s.(owner := PopLock(s.owner.t)))
  {
    OwnerMoves(s, PopLock(s.owner.t));
    hide LockInv, ArrayInv, ThiefInv, Done, Low;
  }

  lemma OwnerGivesUpLocked(s: State)
    requires Inv(s) && s.owner.PopLoadHeadLocked? && s.head > s.owner.t
    ensures Inv(s.(owner := PopRestore(s.owner.t)))
  {
    PopFinds(s);
    OwnerMoves(s, PopRestore(s.owner.t));
    hide LockInv, ArrayInv, ThiefInv, Done, Low;
  }

  /** The item read is the one that was taken. */
  lemma PopReads(s: State)
    requires Inv(s) && (s.owner.PopRead? || s.owner.PopReadLocked?)
    ensures Read(s.arr, Slot(s, s.owner.t)) == s.owner.x
  {
    SlotIs(s, s.owner.t);
    hide AllOnes, And, Mod, LockInv, ThiefInv;
    assert Window(s)[|Window(s)| - 1] == s.owner.x;
  }

  lemma StoredShrinks(arr: seq<Item>, low: nat, w: seq<Item>, x: Item)
    requires Stored(arr, low, w + [x])
    ensures Stored(arr, low, w)
  {
    hide Mod;
    forall j: nat | low <= j < low + |w|
      ensures arr[Mod(j, |arr|)] == w[j - low]
    {
      assert (w + [x])[j - low] == w[j - low];
    }
  }

  /** The popped item leaves the array. */
  lemma ArrayRead(s: State, r: State)
    requires ArrayInv(s) && (s.owner.PopRead? || s.owner.PopReadLocked?) && r.owner in {Idle, PopUnlock(s.owner.x)}
    requires s.tail == s.owner.t && r == s.(owner := r.owner, returned := r.returned)
    ensures ArrayInv(r)
  {
    assert Active(r) == Active(s) && Low(r) == Low(s);
    hide AllOnes, Mod, Stored, Active, Low;
    assert Window(s) == Window(r) + [s.owner.x];
    StoredShrinks(s.arr, Low(s), Window(r), s.owner.x);
  }

  lemma OwnerReads(s: State)
    requires Inv(s) && s.owner.PopRead?
    ensures Inv(Returns(s, s.owner.x).(owner := Idle))
  {
    hide LockInv, ArrayInv, ThiefInv, Low;
    var r := Returns(s, s.owner.x).(owner := Idle);
    Unmoved(s, r);
    ArrayRead(s, r);
    assert Active(r) == Active(s);
    hide Active;
    assert Done(r) == Done(s);
  }

  lemma OwnerReadsLocked(s: State)
    requires Inv(s) && s.owner.PopReadLocked?
    ensures Inv(s.(owner := PopUnlock(s.owner.x)))
  {
    var r := s.(owner := PopUnlock(s.owner.x));
    Unmoved(s, r);
    ArrayRead(s, r);
    assert Done(r) == Done(s);
    hide LockInv, ArrayInv, ThiefInv, Done, Low;
  }

  // ---- growing the array

  /** While the owner holds the lock the deque stands still. */
  lemma StandsStill(s: State)
    requires Inv(s) && Locked(s.owner) && !Lowered(s.owner) && !Installing(s.owner)
    ensures Window(s) == s.items && Low(s) == s.head && |s.items| == s.tail - s.head && Stored(s.arr, s.head, s.items)
    ensures AllOnes(s.mask) && s.mask >= 1 && |s.items| <= |s.arr| == s.mask + 1 && Active(s) == Away
  {
    hide AllOnes, Mod, Stored, ThiefInv, OwnerInv, Done;
    assert Active(s) == Away;
    assert Window(s) == s.items;
    StoredFits(s.arr, s.head, s.items);
  }

  lemma StoredFits(arr: seq<Item>, low: nat, w: seq<Item>)
    requires Stored(arr, low, w)
    ensures |w| <= |arr|
  {
  }

  /** Count() cannot wrap around. */
  lemma CountIsSize(s: State)
    requires Inv(s) && s.owner.SlowCountHead?
    ensures s.owner.t2 >= s.head && s.owner.t2 - s.head == |s.items|
  {
    StandsStill(s);
  }

  /** The array is full, or one short of it: it has to grow. */
  lemma OwnerCountsFull(s: State)
    requires Inv(s) && s.owner.SlowCountHead?
    ensures Inv(s.(owner := SlowCopy(s.owner.item, s.owner.h, |s.items|, seq(2 * |s.arr|, i => 0), 0)))
  {
    OwnerMoves(s, SlowCopy(s.owner.item, s.owner.h, |s.items|, seq(2 * |s.arr|, i => 0), 0));
    hide LockInv, ArrayInv, ThiefInv, Done, Low;
  }

  /** A thief has made room since the fast test. */
  lemma OwnerCountsRoom(s: State)
    requires Inv(s) && s.owner.SlowCountHead? && |s.items| < s.mask
    ensures Inv(s.(owner := SlowWrite(s.owner.item, s.owner.t)))
  {
    hide LockInv, ArrayInv, ThiefInv, Done, Low, Stored, Window, Active;
    StandsStill(s);
    OwnerMoves(s, SlowWrite(s.owner.item, s.owner.t));
  }

  lemma CopyReads(s: State)
    requires Inv(s) && s.owner.SlowCopy? && s.owner.i < s.owner.count
    ensures Read(s.arr, Slot(s, s.owner.i + s.owner.h)) == s.items[s.owner.i]
  {
    hide AllOnes, And, Mod, LockInv, ThiefInv, ArrayInv, Low, Window, Done, Slot, Active;
    StandsStill(s);
    SlotIs(s, s.owner.i + s.owner.h);
  }

  lemma OwnerCopies(s: State)
    requires Inv(s) && s.owner.SlowCopy? && s.owner.i < s.owner.count
    ensures var o := s.owner;
            Inv(s.(owner := SlowCopy(o.item, o.h, o.count, Write(o.copy, o.i, s.items[o.i]), o.i + 1)))
  {
    var o := s.owner;
    var r := SlowCopy(o.item, o.h, o.count, Write(o.copy, o.i, s.items[o.i]), o.i + 1);
    OwnerMoves(s, r);
    hide LockInv, ArrayInv, ThiefInv, Done, Low;
    assert r.copy[..o.i + 1] == o.copy[..o.i] + [s.items[o.i]];
    assert s.items[..o.i + 1] == s.items[..o.i] + [s.items[o.i]];
  }

  lemma CopyIsStored(copy: seq<Item>, items: seq<Item>)
    requires |items| <= |copy| && copy[..|items|] == items
    ensures Stored(copy, 0, items)
  {
    forall j: nat | 0 <= j < |items|
      ensures copy[Mod(j, |copy|)] == items[j]
    {
      SmallMod(j, |copy|);
      assert copy[..|items|][j] == items[j];
    }
  }

  lemma SmallMod(j: nat, n: nat)
    requires j < n
    ensures Mod(j, n) == j
  {
  }

  lemma InstallArray(s: State)
    requires Inv(s) && s.owner.SlowCopy? && s.owner.i >= s.owner.count
    ensures ArrayInv(s.(arr := s.owner.copy, owner := SlowStoreHead(s.owner.item, s.owner.count)))
  {
    hide LockInv, ThiefInv, Done, Low, AllOnes, ArrayInv, Stored, Mod, Window, Active;
    StandsStill(s);
    assert s.items[..|s.items|] == s.items;
    CopyIsStored(s.owner.copy, s.items);
    InstallIntro(s, s.(arr := s.owner.copy, owner := SlowStoreHead(s.owner.item, s.owner.count)));
  }

  lemma InstallIntro(s: State, r: State)
    requires AllOnes(s.mask) && s.mask >= 1 && Active(s) == Away && Installing(r.owner)
    requires r == s.(arr := r.arr, owner := r.owner) && |r.arr| == 2 * (s.mask + 1) && |s.items| <= s.mask + 1
             && Stored(r.arr, 0, s.items)
    ensures ArrayInv(r)
  {
    hide AllOnes, Stored;
    assert Active(r) == Away;
    assert Window(r) == s.items;
  }

  lemma OwnerInstalls(s: State)
    requires Inv(s) && s.owner.SlowCopy? && s.owner.i >= s.owner.count
    ensures Inv(s.(arr := s.owner.copy, owner := SlowStoreHead(s.owner.item, s.owner.count)))
  {
    hide LockInv, ArrayInv, ThiefInv, Done, Low, Active;
    var r := s.(arr := s.owner.copy, owner := SlowStoreHead(s.owner.item, s.owner.count));
    Unmoved(s, r);
    InstallArray(s);
    DoneSameOwner(s, r);
  }

  /** Head and tail do not matter while the array is being installed. */
  lemma InstallMoves(s: State, r: State)
    requires LockInv(s) && ArrayInv(s) && Installing(s.owner) && Installing(r.owner) && s.pushed == Done(s)
    requires r == s.(head := r.head, tail := r.tail, owner := r.owner)
    ensures LockInv(r) && ArrayInv(r) && ThiefInv(r) && r.pushed == Done(r)
  {
    assert Active(r) == Active(s) == Away;
    hide AllOnes, Stored;
  }

  lemma OwnerResetsHead(s: State)
    requires Inv(s) && s.owner.SlowStoreHead?
    ensures Inv(s.(head := 0, owner := SlowStoreTail(s.owner.item, s.owner.count)))
  {
    InstallMoves(s, s.(head := 0, owner := SlowStoreTail(s.owner.item, s.owner.count)));
    hide LockInv, ArrayInv, ThiefInv, Done, Low;
  }

  lemma OwnerResetsTail(s: State)
    requires Inv(s) && s.owner.SlowStoreTail?
    ensures Inv(s.(tail := s.owner.count, owner := SlowStoreMask(s.owner.item, s.owner.count)))
  {
    InstallMoves(s, s.(tail := s.owner.count, owner := SlowStoreMask(s.owner.item, s.owner.count)));
    hide LockInv, ArrayInv, ThiefInv, Done, Low;
  }

  lemma ArraySetsMask(s: State)
    requires Inv(s) && s.owner.SlowStoreMask?
    ensures var r := s.(mask := s.mask * 2 + 1, owner := SlowWrite(s.owner.item, s.owner.count));
            ArrayInv(r) && Low(r) == 0 && |s.items| <= r.mask
  {
    var r := s.(mask := s.mask * 2 + 1, owner := SlowWrite(s.owner.item, s.owner.count));
    assert AllOnes(r.mask);
    assert Active(s) == Away && Active(r) == Away;
    assert |s.arr| == 2 * (s.mask + 1) && Stored(s.arr, 0, s.items);
    assert s.head == 0 && s.tail == |s.items|;
    hide Inv, LockInv, ThiefInv, Done, AllOnes, Stored, Mod, Active;
    assert Window(r) == s.items;
  }

  lemma OwnerSetsMask(s: State)
    requires Inv(s) && s.owner.SlowStoreMask?
    ensures Inv(s.(mask := s.mask * 2 + 1, owner := SlowWrite(s.owner.item, s.owner.count)))
  {
    hide LockInv, ArrayInv, ThiefInv, Done;
    var r := s.(mask := s.mask * 2 + 1, owner := SlowWrite(s.owner.item, s.owner.count));
    Unmoved(s, r);
    ArraySetsMask(s);
    DoneSameOwner(s, r);
  }

  // ---- the owner's steps together

  lemma OwnerKeepsPush(s: State, c: Command)
    requires Inv(s) && !s.owner.Idle?
    requires s.owner.PushLoadHead? || s.owner.PushWrite? || s.owner.PushPublish? || s.owner.PushLock?
             || s.owner.SlowLoadHead?
          || s.owner.SlowCountTail? || s.owner.SlowWrite? || s.owner.SlowPublish? || s.owner.SlowUnlock?
    ensures Inv(OwnerStep(s, c))
  {
    hide Inv;
    match s.owner
    case PushWrite(_, _) => OwnerWrites(s);
    case PushPublish(_, _) => OwnerPublishes(s);
    case PushLock(_, _) =>
      if s.lock == Nobody {
        OwnerTakesLock(s);
      }
    case SlowWrite(_, _) => OwnerWritesSlow(s);
    case SlowPublish(_, _) => OwnerPublishesSlow(s);
    case SlowUnlock => OwnerFreesLock(s);
    case _ => OwnerLooks(s, c);
  }

  lemma OwnerTakesLock(s: State)
    requires Inv(s) && (s.owner.PushLock? || s.owner.PopLock?) && s.lock == Nobody
    ensures Inv(s.(lock := TheOwner,
                   owner := if s.owner.PushLock? then SlowLoadHead(s.owner.item, s.owner.t)
                            else PopLoadHeadLocked(s.owner.t)))
  {
    OwnerLocks(s, TheOwner, if s.owner.PushLock? then SlowLoadHead(s.owner.item, s.owner.t)
      else PopLoadHeadLocked(s.owner.t));
    hide LockInv, ArrayInv, ThiefInv, Done, Low;
  }

  lemma OwnerFreesLock(s: State)
    requires Inv(s) && (s.owner.PopUnlock? || s.owner.PopUnlockEmpty? || s.owner.SlowUnlock?)
    ensures Inv((if s.owner.PopUnlock? then Returns(s, s.owner.x) else s).(lock := Nobody, owner := Idle))
  {
    OwnerLocks(s, Nobody, Idle);
    hide LockInv, ArrayInv, ThiefInv, Done, Low;
  }

  lemma OwnerKeepsGrow(s: State, c: Command)
    requires Inv(s)
    requires s.owner.SlowCountHead? || s.owner.SlowCopy? || s.owner.SlowStoreHead? || s.owner.SlowStoreTail?
             || s.owner.SlowStoreMask?
    ensures Inv(OwnerStep(s, c))
  {
    hide Inv, Read, Slot;
    match s.owner
    case SlowCountHead(_, _, _, _) =>
      CountIsSize(s);
      if |s.items| >= s.mask {
        OwnerCountsFull(s);
      } else {
        OwnerCountsRoom(s);
      }
    case SlowCopy(_, _, count, _, i) =>
      if i < count {
        CopyReads(s);
        OwnerCopies(s);
      } else {
        OwnerInstalls(s);
      }
    case SlowStoreHead(_, _) => OwnerResetsHead(s);
    case SlowStoreTail(_, _) => OwnerResetsTail(s);
    case SlowStoreMask(_, _) => OwnerSetsMask(s);
  }

  predicate Popping(o: Owner) {
    o.PopStoreTail? || o.PopLoadHead? || o.PopRead? || o.PopLock? || o.PopLoadHeadLocked? || o.PopReadLocked?
      || o.PopRestore?
    || o.PopUnlock? || o.PopUnlockEmpty?
  }

  lemma OwnerKeepsPop(s: State, c: Command)
    requires Inv(s) && Popping(s.owner)
    ensures Inv(OwnerStep(s, c))
  {
    hide Inv, Read, Slot, TakeLast, Returns;
    match s.owner
    case PopStoreTail(_) => OwnerStoresTail(s);
    case PopLoadHead(t) =>
      if s.head <= t {
        OwnerTakes(s);
      } else {
        OwnerGivesUp(s);
      }
    case PopRead(_, _) =>
      PopReads(s);
      OwnerReads(s);
    case PopLock(_) =>
      if s.lock == Nobody {
        OwnerTakesLock(s);
      }
    case PopLoadHeadLocked(t) =>
      if s.head <= t {
        OwnerTakesLocked(s);
      } else {
        OwnerGivesUpLocked(s);
      }
    case PopReadLocked(_, _) =>
      PopReads(s);
      OwnerReadsLocked(s);
    case PopRestore(_) => OwnerRestores(s);
    case _ => OwnerFreesLock(s);
  }

  lemma OwnerKeeps(s: State, c: Command)
    requires Inv(s)
    ensures Inv(OwnerStep(s, c))
  {
    hide Inv, Call;
    if s.owner.Idle? {
      OwnerCall(s, c);
    } else if Popping(s.owner) {
      OwnerKeepsPop(s, c);
    } else if s.owner.SlowCountHead? || s.owner.SlowCopy? || s.owner.SlowStoreHead? || s.owner.SlowStoreTail?
      || s.owner.SlowStoreMask? {
      OwnerKeepsGrow(s, c);
    } else {
      OwnerKeepsPush(s, c);
    }
  }

  // ---- a thief keeps the invariant

  /** The thief under way goes from one place to another. */
  lemma ThiefMoves(s: State, i: nat, p: Thief)
    requires LockInv(s) && i < |s.thieves| && s.thieves[i] != Away && p != Away
    ensures LockInv(SetThief(s, i, p)) && Active(s) == s.thieves[i] && Active(SetThief(s, i, p)) == p
  {
  }

  /** What does not depend on the thieves once the thief's place, the low end and the window are known. */
  lemma ThiefIntro(s: State, r: State)
    requires Inv(s) && LockInv(r) && ThiefInv(r) && r.pushed == Done(r)
    requires r == s.(thieves := r.thieves, lock := r.lock, head := r.head, items := r.items, returned := r.returned)
    requires 0 <= Low(s) <= Low(r) && Low(r) + |Window(r)| == High(s)
    requires Stored(s.arr, Low(s), Window(s)) ==> Stored(s.arr, Low(r), Window(r))
    requires !Locked(s.owner)
    ensures Inv(r)
  {
    hide LockInv, ThiefInv, Done, AllOnes, Stored, Low, Window, Active, Mod;
  }

  lemma ThiefKnows(s: State, i: nat)
    requires Inv(s) && i < |s.thieves| && s.thieves[i] != Away
    ensures s.lock == AThief(i) && Active(s) == s.thieves[i] && !Locked(s.owner)
    ensures 0 <= Low(s) && Low(s) + |Window(s)| == High(s) && Stored(s.arr, Low(s), Window(s)) && |s.arr| == s.mask + 1
            && AllOnes(s.mask)
  {
    hide ThiefInv, OwnerInv, Done, Stored, Mod, AllOnes;
    assert !Installing(s.owner);
  }

  lemma ThiefLocks(s: State, i: nat)
    requires Inv(s) && i < |s.thieves| && s.thieves[i] == Away && s.lock == Nobody
    ensures Inv(SetThief(s.(lock := AThief(i)), i, StealLoadHead))
  {
    var r := SetThief(s.(lock := AThief(i)), i, StealLoadHead);
    assert Active(s) == Away && Active(r) == StealLoadHead;
    assert !Locked(s.owner);
    assert Window(r) == Window(s) && Low(r) == Low(s);
    assert Done(r) == Done(s);
    assert LockInv(r);
    hide LockInv, Done, Stored, Mod, AllOnes, Active, Low, Window;
    ThiefIntro(s, r);
  }

  lemma ThiefLoadsHead(s: State, i: nat)
    requires Inv(s) && i < |s.thieves| && s.thieves[i].StealLoadHead?
    ensures Inv(SetThief(s, i, StealStoreHead(s.head)))
  {
    var r := SetThief(s, i, StealStoreHead(s.head));
    ThiefKnows(s, i);
    ThiefMoves(s, i, StealStoreHead(s.head));
    hide Inv, LockInv, Active, Stored, Mod, AllOnes;
    assert Window(r) == Window(s) && Low(r) == Low(s);
    DoneSame(s, r);
    ThiefIntro(s, r);
  }

  lemma DoneSame(s: State, r: State)
    requires Inv(s) && r.pushed == s.pushed && r.returned == s.returned && r.items == s.items && r.owner == s.owner
    requires StealFlight(Active(r)) == StealFlight(Active(s)) && !Active(s).StealUnlock? && !Active(r).StealUnlock?
    ensures r.pushed == Done(r)
  {
  }

  lemma ThiefStoresHead(s: State, i: nat)
    requires Inv(s) && i < |s.thieves| && s.thieves[i].StealStoreHead?
    ensures Inv(SetThief(s.(head := s.thieves[i].h + 1), i, StealLoadTail(s.thieves[i].h)))
  {
    var h := s.thieves[i].h;
    var r := SetThief(s.(head := h + 1), i, StealLoadTail(h));
    ThiefKnows(s, i);
    assert s.head == h;
    ThiefMoves(s.(head := h + 1), i, StealLoadTail(h));
    hide Inv, LockInv, Active, Stored, Mod, AllOnes;
    assert Window(r) == Window(s) && Low(r) == Low(s);
    DoneSame(s, r);
    ThiefIntro(s, r);
  }

  lemma ThiefGivesUp(s: State, i: nat)
    requires Inv(s) && i < |s.thieves| && s.thieves[i].StealLoadTail?
    ensures Inv(SetThief(s, i, StealRestore(s.thieves[i].h)))
  {
    var r := SetThief(s, i, StealRestore(s.thieves[i].h));
    ThiefKnows(s, i);
    assert ThiefInv(s);
    ThiefMoves(s, i, StealRestore(s.thieves[i].h));
    hide Inv, LockInv, Active, Stored, Mod, AllOnes;
    assert Window(r) == Window(s) && Low(r) == Low(s);
    DoneSame(s, r);
    ThiefIntro(s, r);
  }

  lemma ThiefRestores(s: State, i: nat)
    requires Inv(s) && i < |s.thieves| && s.thieves[i].StealRestore?
    ensures Inv(SetThief(s.(head := s.thieves[i].h), i, StealUnlockEmpty))
  {
    var r := SetThief(s.(head := s.thieves[i].h), i, StealUnlockEmpty);
    ThiefKnows(s, i);
    assert ThiefInv(s);
    ThiefMoves(s.(head := s.thieves[i].h), i, StealUnlockEmpty);
    hide Inv, LockInv, Active, Stored, Mod, AllOnes;
    assert Window(r) == Window(s) && Low(r) == Low(s);
    DoneSame(s, r);
    ThiefIntro(s, r);
  }

  /** A steal that finds its index below the tail finds an item, although a pop may be under way. */
  lemma StealFinds(s: State, i: nat)
    requires Inv(s) && i < |s.thieves| && s.thieves[i].StealLoadTail? && s.thieves[i].h < s.tail
    ensures s.items != []
  {
    ThiefKnows(s, i);
    assert ThiefInv(s);
    hide LockInv, Active, Stored, Mod, AllOnes, Done, OwnerInv;
  }

  lemma ThiefTakes(s: State, i: nat)
    requires Inv(s) && i < |s.thieves| && s.thieves[i].StealLoadTail? && s.items != []
    ensures Inv(SetThief(s.(items := s.items[1..]), i, StealRead(s.thieves[i].h, s.items[0])))
  {
    hide Stored, Mod, AllOnes, Done, ArrayInv, OwnerInv, Low, High;
    var r := SetThief(s.(items := s.items[1..]), i, StealRead(s.thieves[i].h, s.items[0]));
    ThiefKnows(s, i);
    ThiefMoves(s.(items := s.items[1..]), i, StealRead(s.thieves[i].h, s.items[0]));
    DoneSteal(s, r);
    assert ThiefInv(r);
    hide Inv, ThiefInv, LockInv, Active;
    assert [s.items[0]] + s.items[1..] == s.items;
    assert Window(r) == Window(s);
    SameLow(s, r);
    ThiefIntro(s, r);
  }

  lemma SameLow(s: State, r: State)
    requires r.head == s.head && Advanced(Active(r)) == Advanced(Active(s))
    ensures Low(r) == Low(s)
  {
  }

  lemma DoneSteal(s: State, r: State)
    requires Inv(s) && s.items != [] && r.pushed == s.pushed && r.returned == s.returned && r.owner == s.owner
             && r.items == s.items[1..]
    requires Active(s).StealLoadTail? && Active(r).StealRead? && Active(r).x == s.items[0]
    ensures r.pushed == Done(r)
  {
    hide LockInv, ArrayInv, ThiefInv, OwnerInv, Active;
    assert [s.items[0]] + s.items[1..] == s.items;
    assert multiset(s.items) == multiset([s.items[0]]) + multiset(s.items[1..]);
  }

  /** The item read is the one that was taken: no push has overwritten its slot. */
  lemma StealReads(s: State, i: nat)
    requires Inv(s) && i < |s.thieves| && s.thieves[i].StealRead?
    ensures Read(s.arr, Slot(s, s.thieves[i].h)) == s.thieves[i].x
  {
    ThiefKnows(s, i);
    assert ThiefInv(s);
    SlotIs(s, s.thieves[i].h);
    hide Inv, LockInv, AllOnes, And, Mod, Active, Slot;
    assert Window(s)[0] == s.thieves[i].x;
  }

  lemma StoredTail(arr: seq<Item>, low: nat, x: Item, w: seq<Item>)
    requires Stored(arr, low, [x] + w)
    ensures Stored(arr, low + 1, w)
  {
    hide Mod;
    forall j: nat | low + 1 <= j < low + 1 + |w|
      ensures arr[Mod(j, |arr|)] == w[j - (low + 1)]
    {
      assert ([x] + w)[j - low] == w[j - low - 1];
    }
  }

  lemma ThiefReads(s: State, i: nat)
    requires Inv(s) && i < |s.thieves| && s.thieves[i].StealRead?
    ensures Inv(SetThief(s, i, StealUnlock(s.thieves[i].x)))
  {
    var x := s.thieves[i].x;
    var r := SetThief(s, i, StealUnlock(x));
    ThiefKnows(s, i);
    assert ThiefInv(s);
    ThiefMoves(s, i, StealUnlock(x));
    DoneRead(s, r);
    hide Inv, LockInv, Active, Stored, Mod, AllOnes, Done;
    assert Window(s) == [x] + Window(r) && Low(r) == Low(s) + 1;
    StoredTail(s.arr, Low(s), x, Window(r));
    ThiefIntro(s, r);
  }

  lemma DoneRead(s: State, r: State)
    requires Inv(s) && r.pushed == s.pushed && r.returned == s.returned && r.owner == s.owner && r.items == s.items
    requires Active(s).StealRead? && Active(r).StealUnlock? && Active(r).x == Active(s).x
    ensures r.pushed == Done(r)
  {
  }

  lemma ThiefLeaves(s: State, i: nat)
    requires Inv(s) && i < |s.thieves| && (s.thieves[i].StealUnlock? || s.thieves[i].StealUnlockEmpty?)
    ensures Inv(SetThief((if s.thieves[i].StealUnlock? then Returns(s, s.thieves[i].x) else s).(lock := Nobody),
                         i, Away))
  {
    var r := SetThief((if s.thieves[i].StealUnlock? then Returns(s, s.thieves[i].x) else s).(lock := Nobody), i, Away);
    ThiefKnows(s, i);
    assert Active(r) == Away;
    assert LockInv(r);
    DoneLeave(s, r);
    hide Inv, LockInv, Active, Stored, Mod, AllOnes, Done;
    assert Window(s) == Window(r) && Low(r) == Low(s);
    ThiefIntro(s, r);
  }

  lemma DoneLeave(s: State, r: State)
    requires Inv(s) && r.pushed == s.pushed && r.owner == s.owner && r.items == s.items && Active(r) == Away
    requires Active(s).StealUnlock? || Active(s).StealUnlockEmpty?
    requires r.returned == if Active(s).StealUnlock? then s.returned + multiset{Active(s).x} else s.returned
    ensures r.pushed == Done(r)
  {
  }

  lemma ThiefKeeps(s: State, i: nat)
    requires Inv(s) && i < |s.thieves|
    ensures Inv(ThiefStep(s, i))
  {
    hide Inv, SetThief, Returns, Read, Slot;
    match s.thieves[i]
    case Away =>
      if s.lock == Nobody {
        ThiefLocks(s, i);
      }
    case StealLoadHead => ThiefLoadsHead(s, i);
    case StealStoreHead(_) => ThiefStoresHead(s, i);
    case StealLoadTail(h) =>
      if h >= s.tail {
        ThiefGivesUp(s, i);
      } else {
        StealFinds(s, i);
        ThiefTakes(s, i);
      }
    case StealRead(_, _) =>
      StealReads(s, i);
      ThiefReads(s, i);
    case StealRestore(_) => ThiefRestores(s, i);
    case _ => ThiefLeaves(s, i);
  }

  // ---- runs

  datatype Move = OwnerTurn(c: Command) | ThiefTurn(i: nat)

  /** The deque with n thieves after any interleaving of steps. */
  function After(n: nat, moves: seq<Move>): (s: State)
    ensures |s.thieves| == n
  {
    if moves == [] then Start(n)
    else
      var s := After(n, moves[..|moves| - 1]);
      match moves[|moves| - 1]
      case OwnerTurn(c) => OwnerStep(s, c)
      case ThiefTurn(i) => if i < n then ThiefStep(s, i) else s
  }

  lemma InitHolds(n: nat)
    ensures Inv(Start(n))
  {
    assert AllOnes(1);
  }

  /** Main invariant: over every interleaving, any number of thieves and any number of resizes. */
  lemma {:induction false} Always(n: nat, moves: seq<Move>)
    ensures Inv(After(n, moves))
  {
    hide Inv, OwnerStep, ThiefStep;
    if moves == [] {
      InitHolds(n);
    } else {
      var s := After(n, moves[..|moves| - 1]);
      Always(n, moves[..|moves| - 1]);
      match moves[|moves| - 1]
      case OwnerTurn(c) => OwnerKeeps(s, c);
      case ThiefTurn(i) =>
        if i < n {
          ThiefKeeps(s, i);
        }
    }
  }

  predicate Quiet(s: State) {
    s.owner == Idle && forall i :: 0 <= i < |s.thieves| ==> s.thieves[i] == Away
  }

  /** Main theorem: no item is returned more often than it was pushed; and when no operation is in flight, the
      pushed items are the returned ones and those in the array from head to tail. */
  lemma EachItemOnce(n: nat, moves: seq<Move>)
    ensures var s := After(n, moves);
            && s.returned <= s.pushed
            && (Quiet(s) ==>
                  && s.head <= s.tail && |s.items| == s.tail - s.head && s.pushed == s.returned + multiset(s.items)
                  && forall j: nat :: s.head <= j < s.tail ==> Read(s.arr, Slot(s, j)) == s.items[j - s.head])
  {
    Always(n, moves);
    var s := After(n, moves);
    hide After;
    QuietMeans(s);
    DoneCovers(s);
  }

  lemma DoneCovers(s: State)
    requires Inv(s)
    ensures s.returned <= s.pushed
  {
    hide LockInv, ArrayInv, ThiefInv, OwnerInv;
  }

  lemma QuietMeans(s: State)
    requires Inv(s)
    ensures Quiet(s) ==>
      && s.head <= s.tail && |s.items| == s.tail - s.head && s.pushed == s.returned + multiset(s.items)
      && forall j: nat :: s.head <= j < s.tail ==> Read(s.arr, Slot(s, j)) == s.items[j - s.head]
  {
    if Quiet(s) {
      assert Active(s) == Away;
      assert Window(s) == s.items;
      assert Low(s) == s.head && s.tail - s.head == |s.items| && Stored(s.arr, s.head, s.items);
      assert |s.arr| == s.mask + 1 && AllOnes(s.mask);
      assert s.pushed == s.returned + multiset(s.items);
      hide Inv, ArrayInv, LockInv, Window, Low, Active, Done, And, Mod, AllOnes, Slot;
      forall j: nat | s.head <= j < s.tail
        ensures Read(s.arr, Slot(s, j)) == s.items[j - s.head]
      {
        SlotIs(s, j);
      }
    }
  }

  /** What a step does to the deque seen as one atomic queue. */
  datatype Effect = Nothing | PushesLast(item: Item) | PopsLast(item: Item) | StealsFirst(item: Item)

  predicate Takes(p: seq<Item>, q: seq<Item>, e: Effect) {
    match e
    case Nothing => q == p
    case PushesLast(x) => q == p + [x]
    case PopsLast(x) => p == q + [x]
    case StealsFirst(x) => p == [x] + q
  }

  /** When a step of the owner takes effect. */
  function OwnerEffect(s: State): Effect {
    match s.owner
    case PushPublish(item, _) => PushesLast(item)
    case SlowPublish(item, _) => PushesLast(item)
    case PopLoadHead(t) => if s.head <= t && s.items != [] then PopsLast(s.items[|s.items| - 1]) else Nothing
    case PopLoadHeadLocked(t) => if s.head <= t && s.items != [] then PopsLast(s.items[|s.items| - 1]) else Nothing
    case _ => Nothing
  }

  function ThiefEffect(s: State, i: nat): Effect
    requires i < |s.thieves|
  {
    if s.thieves[i].StealLoadTail? && s.thieves[i].h < s.tail && s.items != [] then StealsFirst(s.items[0]) else Nothing
  }

  /** Main theorem: the owner's steps refine an atomic deque. A push adds its item last and a pop removes the last one,
      each in one step; the item that the pop reads from the array later is the one it removed; and a pop that
      returns false has found the deque empty. */
  lemma OwnerRefines(n: nat, moves: seq<Move>, c: Command)
    ensures var s := After(n, moves);
            var r := OwnerStep(s, c);
            && Takes(s.items, r.items, OwnerEffect(s))
            && (s.owner.PopRead? ==> r.returned == s.returned + multiset{s.owner.x})
            && (s.owner.PopReadLocked? ==> r.owner == PopUnlock(s.owner.x))
            && (s.owner.PopLoadHead? || s.owner.PopLoadHeadLocked? ==>
                  (s.head <= s.owner.t ==> OwnerEffect(s).PopsLast?))
            && (s.owner.PopLoadHeadLocked? && s.head > s.owner.t ==> s.items == [])
            && (s.owner.Idle? && c.Pop? && s.tail == 0 ==> s.items == [])
  {
    Always(n, moves);
    var s := After(n, moves);
    hide After;
    OwnerRefinesAt(s, c);
  }

  lemma OwnerRefinesAt(s: State, c: Command)
    requires Inv(s)
    ensures var r := OwnerStep(s, c);
            && Takes(s.items, r.items, OwnerEffect(s))
            && (s.owner.PopRead? ==> r.returned == s.returned + multiset{s.owner.x})
            && (s.owner.PopReadLocked? ==> r.owner == PopUnlock(s.owner.x))
            && (s.owner.PopLoadHead? || s.owner.PopLoadHeadLocked? ==>
                  (s.head <= s.owner.t ==> OwnerEffect(s).PopsLast?))
            && (s.owner.PopLoadHeadLocked? && s.head > s.owner.t ==> s.items == [])
            && (s.owner.Idle? && c.Pop? && s.tail == 0 ==> s.items == [])
  {
    hide Inv, Read, Slot, Write;
    if s.owner.PopRead? || s.owner.PopReadLocked? {
      PopReads(s);
    } else if s.owner.PopLoadHead? || s.owner.PopLoadHeadLocked? {
      PopFinds(s);
      assert s.items != [] ==> s.items[..|s.items| - 1] + [s.items[|s.items| - 1]] == s.items;
    } else if s.owner.Idle? && s.tail == 0 {
      EmptyAtZero(s);
    }
  }

  lemma EmptyAtZero(s: State)
    requires Inv(s) && s.owner.Idle? && s.tail == 0
    ensures s.items == []
  {
    hide LockInv, ThiefInv, Done, Stored;
  }

  /** Main theorem: a steal removes the first item in one step, and reads that item although pushes may go on
      meanwhile. */
  lemma StealRefines(n: nat, moves: seq<Move>, i: nat)
    requires i < n
    ensures var s := After(n, moves);
            var r := ThiefStep(s, i);
            && Takes(s.items, r.items, ThiefEffect(s, i))
            && (s.thieves[i].StealRead? ==> r.thieves[i] == StealUnlock(s.thieves[i].x))
            && (s.thieves[i].StealLoadTail? ==> (s.thieves[i].h < s.tail <==> ThiefEffect(s, i).StealsFirst?))
  {
    Always(n, moves);
    var s := After(n, moves);
    hide After;
    if s.thieves[i].StealRead? {
      StealReads(s, i);
    }
    if s.thieves[i].StealLoadTail? && s.thieves[i].h < s.tail {
      StealFinds(s, i);
      assert [s.items[0]] + s.items[1..] == s.items;
    }
    hide Inv, Read, Slot;
  }

  // ---- operations end

  /** How many steps of its own the owner is away from the end of its operation, with an array of this size. */
  function OwnerLeft(o: Owner, size: nat): nat {
    match o
    case Idle => 0
    case PushLoadHead(_, _) => size + 12
    case PushWrite(_, _) => 2
    case PushPublish(_, _) => 1
    case PushLock(_, _) => size + 11
    case SlowLoadHead(_, _) => size + 10
    case SlowCountTail(_, _, _) => size + 9
    case SlowCountHead(_, _, _, _) => size + 8
    case SlowCopy(_, _, count, _, i) => 7 + if i <= count then count - i else 0
    case SlowStoreHead(_, _) => 6
    case SlowStoreTail(_, _) => 5
    case SlowStoreMask(_, _) => 4
    case SlowWrite(_, _) => 3
    case SlowPublish(_, _) => 2
    case SlowUnlock => 1
    case PopStoreTail(_) => 7
    case PopLoadHead(_) => 6
    case PopRead(_, _) => 1
    case PopLock(_) => 5
    case PopLoadHeadLocked(_) => 4
    case PopReadLocked(_, _) => 2
    case PopRestore(_) => 2
    case PopUnlock(_) => 1
    case PopUnlockEmpty => 1
  }

  function ThiefLeft(p: Thief): nat {
    match p
    case Away => 0
    case StealLoadHead => 5
    case StealStoreHead(_) => 4
    case StealLoadTail(_) => 3
    case StealRead(_, _) => 2
    case StealRestore(_) => 2
    case StealUnlock(_) => 1
    case StealUnlockEmpty => 1
  }

  predicate AwaitsLock(s: State) {
    s.lock != Nobody && (s.owner.PushLock? || s.owner.PopLock?)
  }

  /** There are no more items than slots. */
  lemma ItemsFit(s: State)
    requires Inv(s) && s.owner.SlowCountHead?
    ensures |s.items| <= |s.arr|
  {
    StandsStill(s);
    hide LockInv, ThiefInv, AllOnes, Done;
  }

  lemma PushEnds(s: State, c: Command)
    requires Inv(s) && !s.owner.Idle? && !AwaitsLock(s) && !s.owner.SlowCountHead?
    requires var o := s.owner;
             !(o.PopStoreTail? || o.PopLoadHead? || o.PopRead? || o.PopLock? || o.PopLoadHeadLocked? || o.PopReadLocked?
               || o.PopRestore? || o.PopUnlock? || o.PopUnlockEmpty?)
    ensures OwnerLeft(OwnerStep(s, c).owner, |s.arr|) < OwnerLeft(s.owner, |s.arr|)
  {
    hide LockInv, ArrayInv, ThiefInv, Done, Slot, Read, Write;
  }

  lemma CountEnds(s: State, c: Command)
    requires Inv(s) && s.owner.SlowCountHead?
    ensures OwnerLeft(OwnerStep(s, c).owner, |s.arr|) < OwnerLeft(s.owner, |s.arr|)
  {
    ItemsFit(s);
    CountIsSize(s);
    hide Inv;
  }

  lemma PopEnds(s: State, c: Command)
    requires Inv(s) && !AwaitsLock(s)
    requires var o := s.owner;
             || o.PopStoreTail? || o.PopLoadHead? || o.PopRead? || o.PopLock? || o.PopLoadHeadLocked?
             || o.PopReadLocked?
             || o.PopRestore? || o.PopUnlock? || o.PopUnlockEmpty?
    ensures OwnerLeft(OwnerStep(s, c).owner, |s.arr|) < OwnerLeft(s.owner, |s.arr|)
  {
    hide Inv, Slot, Read, Write;
    if s.owner.PopLoadHead? || s.owner.PopLoadHeadLocked? {
      PopFinds(s);
    }
  }

  lemma FastPaths(s: State, c: Command)
    requires Inv(s)
    ensures var r := OwnerStep(s, c);
            && (s.owner.PushLoadHead? ==> (r.owner.PushLock? <==> s.tail >= s.head + s.mask))
            && (s.owner.PopLoadHead? ==> (r.owner.PopLock? <==> s.head > s.tail))
  {
    hide LockInv, ArrayInv, ThiefInv, Done, Slot, Read, Write;
    if s.owner.PopLoadHead? {
      PopFinds(s);
    }
  }

  /** Main theorem: the owner's operations end. In every reachable state, every step of the owner inside an
      operation brings it nearer to the end of that operation, unless it waits for the lock, which it needs only
      for a push that finds no room before the spare slot and for a pop that finds the head beyond its index. A push
      always begins, and a pop begins unless the tail is 0. */
  lemma OwnerEnds(n: nat, moves: seq<Move>, c: Command)
    ensures var s := After(n, moves);
            var r := OwnerStep(s, c);
            && (!s.owner.Idle? && !AwaitsLock(s) ==> OwnerLeft(r.owner, |s.arr|) < OwnerLeft(s.owner, |s.arr|))
            && (s.owner.PushLoadHead? ==> (r.owner.PushLock? <==> s.tail >= s.head + s.mask))
            && (s.owner.PopLoadHead? ==> (r.owner.PopLock? <==> s.head > s.tail))
            && (s.owner.Idle? && c.Push? ==> r.owner == PushLoadHead(c.item, s.tail))
            && (s.owner.Idle? && c.Pop? && s.tail > 0 ==> r.owner == PopStoreTail(s.tail - 1))
  {
    Always(n, moves);
    var s := After(n, moves);
    var o := s.owner;
    hide After;
    FastPaths(s, c);
    if o.Idle? {
      hide Inv;
    } else if !AwaitsLock(s) {
      hide Inv, OwnerStep, OwnerLeft;
      if o.SlowCountHead? {
        CountEnds(s, c);
      } else if o.PopStoreTail? || o.PopLoadHead? || o.PopRead? || o.PopLock? || o.PopLoadHeadLocked?
        || o.PopReadLocked?
                || o.PopRestore? || o.PopUnlock? || o.PopUnlockEmpty? {
        PopEnds(s, c);
      } else {
        PushEnds(s, c);
      }
    }
  }

  /** Main theorem: steals end. Every step of a thief inside a steal brings it nearer to the end, and a thief begins
      whenever nobody has the lock. */
  lemma StealsEnd(n: nat, moves: seq<Move>, i: nat)
    requires i < n
    ensures var s := After(n, moves);
            var p, r := s.thieves[i], ThiefStep(s, i);
            && i < |r.thieves|
            && (p.Away? ==> r.thieves[i] == if s.lock == Nobody then StealLoadHead else Away)
            && (!p.Away? ==> ThiefLeft(r.thieves[i]) < ThiefLeft(p))
  {
    Always(n, moves);
    var s := After(n, moves);
    hide After, ThiefStep, ThiefLeft;
    StealMoves(s, i);
  }

  lemma StealMoves(s: State, i: nat)
    requires Inv(s) && i < |s.thieves|
    ensures var p, r := s.thieves[i], ThiefStep(s, i);
            && i < |r.thieves|
            && (p.Away? ==> r.thieves[i] == if s.lock == Nobody then StealLoadHead else Away)
            && (!p.Away? ==> ThiefLeft(r.thieves[i]) < ThiefLeft(p))
  {
    hide Inv, Slot, Read;
    if s.thieves[i].StealLoadTail? && s.thieves[i].h < s.tail {
      StealFinds(s, i);
    }
  }
}
