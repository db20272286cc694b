/** The eventcount: waiters announce themselves on an intrusive list, notifiers take them out and owe each one a
    semaphore post. Sequentially consistent interleaving, one shared access or list operation per step, any number
    of threads. All traversals are steered by the next pointers alone. */
module EventCount {
  import opened WaitSets
  import opened LinkedList

  /** Bookkeeping for a thread's node and permit: in no list; in the wait set; taken out by notifier u, who owes the
      post; posted and not yet consumed. */
  datatype Spot = Out | InSet | OwedBy(u: nat) | Posted

  /** Where a thread is. `x`, `nx` and `p` are node pointers; `rest` and `temp` are bookkeeping: what the traversal
      still has to read, and the nodes of the notifier's own list. */
  datatype Pc =
    | Idle
    // prepare_wait
    | PrepCheck
    | PrepWait
    | PrepMark
    | PrepLock
    | PrepPush
    | PrepUnlock
    | Prepared
    // commit_wait and cancel_wait
    | CommitLoad
    | CommitWait
    | CancelMark
    | CancelLoad
    | CancelLock
    | CancelCheck
    | CancelUnlock
    // notify_one_relaxed
    | OneSize
    | OneLock
    | OnePop
    | OneNone
    | OneClear(x: nat)
    | OneUnlock(x: nat)
    | OnePost(x: nat)
    // notify_relaxed
    | SomeSize
    | SomeInit
    | SomeLock
    | SomeBegin
    | SomeScan(p: int, rest: seq<nat>, temp: seq<nat>)
    | SomePick(x: nat, nx: int, rest: seq<nat>, temp: seq<nat>)
    | SomePush(x: nat, nx: int, rest: seq<nat>, temp: seq<nat>)
    | SomeClear(x: nat, nx: int, rest: seq<nat>, temp: seq<nat>)
    // notify_all_relaxed
    | AllSize
    | AllInit
    | AllLock
    | AllFlush
    | AllBegin(temp: seq<nat>)
    | AllTest(p: int, rest: seq<nat>, temp: seq<nat>)
    | AllClear(x: nat, rest: seq<nat>, temp: seq<nat>)
    | AllNext(x: nat, rest: seq<nat>, temp: seq<nat>)
    // the posting loop of both
    | Unlock(temp: seq<nat>)
    | PostBegin(temp: seq<nat>)
    | PostTest(p: int, rest: seq<nat>)
    | PostNode(x: nat, nx: int, rest: seq<nat>)

  datatype Holder = Nobody | Thread(t: nat)

  /** The pointers and the size of the wait set, the per-thread flags and semaphores, the mutex and the program
      counters; `waitset` and `spot` are bookkeeping. `fault` is set when a node is pushed that is still in a list,
      removed although it is not in the wait set, or when a pointer leads nowhere. */
  datatype State = State(
    links: Links, size: nat, inWaitset: seq<bool>, spurious: seq<bool>, sema: seq<nat>, lock: Holder,
    pcs: seq<Pc>, waitset: seq<nat>, spot: seq<Spot>, fault: bool)

  datatype Choice = Prepare | Commit | Cancel | NotifyOne | NotifySome | NotifyAll | Pred(yes: bool)

  predicate Shaped(s: State) {
    |s.inWaitset| == |s.spurious| == |s.sema| == |s.pcs| == |s.spot|
  }

  // ---- the nodes: one per thread, then the ends of the wait set and of each notifier's own list

  function WsHead(n: nat): nat { n }

  function WsTail(n: nat): nat { n + 1 }

  function TempHead(n: nat, u: nat): nat { n + 2 + 2 * u }

  function TempTail(n: nat, u: nat): nat { n + 3 + 2 * u }

  function Nulls(n: nat): Links {
    Links(seq(3 * n + 2, i => -1), seq(3 * n + 2, i => -1))
  }

  function Start(n: nat): State {
    State(ResetLinks(Nulls(n), WsHead(n), WsTail(n)), 0, seq(n, t => false), seq(n, t => false), seq(n, t => 0), Nobody,
          seq(n, t => Idle), [], seq(n, t => Out), false)
  }

  predicate InPool(s: State, x: int) {
    0 <= x < |s.links.next|
  }

  predicate IsThread(s: State, x: int) {
    0 <= x < |s.pcs|
  }

  function Next(s: State, x: int): int {
    Get(s.links.next, x)
  }

  // ---- steps

  function Go(s: State, t: nat, pc: Pc): (r: State)
    requires t < |s.pcs|
    ensures |r.pcs| == |s.pcs|
  {
    s.(pcs := s.pcs[t := pc])
  }

  function Fault(s: State): (r: State)
    ensures |r.pcs| == |s.pcs|
  {
    s.(fault := true)
  }

  /** lock or wait for it */
  function TakeLock(s: State, t: nat, pc: Pc): (r: State)
    requires t < |s.pcs|
    ensures |r.pcs| == |s.pcs|
  {
    if s.lock != Nobody then s else Go(s.(lock := Thread(t)), t, pc)
  }

  function FreeLock(s: State, t: nat, pc: Pc): (r: State)
    requires t < |s.pcs|
    ensures |r.pcs| == |s.pcs|
  {
    Go(s.(lock := Nobody), t, pc)
  }

  function SetIn(s: State, t: nat, v: bool): (r: State)
    requires t < |s.inWaitset|
    ensures |r.pcs| == |s.pcs|
  {
    s.(inWaitset := s.inWaitset[t := v])
  }

  function SetSpurious(s: State, t: nat, v: bool): (r: State)
    requires t < |s.spurious|
    ensures |r.pcs| == |s.pcs|
  {
    s.(spurious := s.spurious[t := v])
  }

  function SetSpot(s: State, t: nat, p: Spot): (r: State)
    requires t < |s.spot|
    ensures |r.pcs| == |s.pcs|
  {
    s.(spot := s.spot[t := p])
  }

  /** sema_.wait() of the thread itself, or blocked */
  function Consume(s: State, t: nat, pc: Pc): (r: State)
    requires Shaped(s) && t < |s.pcs|
    ensures |r.pcs| == |s.pcs|
  {
    if s.sema[t] == 0 then s else Go(SetSpot(s.(sema := s.sema[t := s.sema[t] - 1]), t, Out), t, pc)
  }

  /** waitset_.remove of node n, which goes into spot p. */
  function TakeOut(s: State, n: nat, p: Spot): (r: State)
    requires Shaped(s)
    ensures |r.pcs| == |s.pcs|
  {
    if n !in s.waitset || n >= |s.spot| then Fault(s)
    else
      SetSpot(s.(links := RemoveLinks(s.links, n), size := if s.size > 0 then s.size - 1 else 0,
                 waitset := Without(s.waitset, Index(s.waitset, n))), n, p)
  }

  /** waitset_.push of the thread's own node. */
  function PushOwn(s: State, t: nat): (r: State)
    requires Shaped(s) && t < |s.pcs|
    ensures |r.pcs| == |s.pcs|
  {
    if s.spot[t] != Out then Fault(s)
    else
      SetSpot(s.(links := PushLinks(s.links, WsHead(|s.pcs|), t), size := s.size + 1, waitset := [t] + s.waitset),
              t, InSet)
  }

  /** `dlist temp;` */
  function InitTemp(s: State, t: nat): (r: State)
    ensures |r.pcs| == |s.pcs|
  {
    s.(links := ResetLinks(s.links, TempHead(|s.pcs|, t), TempTail(|s.pcs|, t)))
  }

  /** sema_.post() of thread x by its notifier. */
  function PostTo(s: State, x: nat): (r: State)
    requires Shaped(s)
    ensures |r.pcs| == |s.pcs|
  {
    if x >= |s.sema| then Fault(s)
    else SetSpot(s.(sema := s.sema[x := s.sema[x] + 1]), x, Posted)
  }

  function ClearFlag(s: State, x: nat): (r: State)
    requires Shaped(s)
    ensures |r.pcs| == |s.pcs|
  {
    if x >= |s.inWaitset| then Fault(s) else SetIn(s, x, false)
  }

  function Later(rest: seq<nat>): seq<nat> {
    if rest == [] then [] else rest[1..]
  }

  function Step(s: State, t: nat, c: Choice): (r: State)
    requires Shaped(s) && t < |s.pcs|
    ensures |r.pcs| == |s.pcs|
  {
    match s.pcs[t]
    case Idle => Begin(s, t, c)
    case PrepCheck => if s.spurious[t] then Go(SetSpurious(s, t, false), t, PrepWait) else Go(s, t, PrepMark)
    case PrepWait => Consume(s, t, PrepMark)
    case PrepMark => Go(SetIn(s, t, true), t, PrepLock)
    case PrepLock => TakeLock(s, t, PrepPush)
    case PrepPush => Go(PushOwn(s, t), t, PrepUnlock)
    case PrepUnlock => FreeLock(s, t, Prepared)
    case Prepared => if c == Commit then Go(s, t, CommitLoad) else if c == Cancel then Go(s, t, CancelMark) else s
    case CommitLoad => Go(s, t, if s.inWaitset[t] then CommitWait else CancelMark)
    case CommitWait => Consume(s, t, Idle)
    case CancelMark => Go(SetSpurious(s, t, true), t, CancelLoad)
    case CancelLoad => Go(s, t, if s.inWaitset[t] then CancelLock else Idle)
    case CancelLock => TakeLock(s, t, CancelCheck)
    case CancelCheck =>
      if s.inWaitset[t] then TakeOut(Go(SetSpurious(SetIn(s, t, false), t, false), t, CancelUnlock), t, Out)
      else Go(s, t, CancelUnlock)
    case CancelUnlock => FreeLock(s, t, Idle)
    case OneSize => Go(s, t, if s.size == 0 then Idle else OneLock)
    case OneLock => TakeLock(s, t, OnePop)
    case OnePop => if s.size == 0 then Go(s, t, OneNone) else PopFirst(s, t)
    case OneNone => FreeLock(s, t, Idle)
    case OneClear(x) => Go(ClearFlag(s, x), t, OneUnlock(x))
    case OneUnlock(x) => FreeLock(s, t, OnePost(x))
    case OnePost(x) => Go(PostTo(s, x), t, Idle)
    case SomeSize => Go(s, t, if s.size == 0 then Idle else SomeInit)
    case SomeInit => Go(InitTemp(s, t), t, SomeLock)
    case SomeLock => TakeLock(s, t, SomeBegin)
    case SomeBegin => Go(s, t, SomeScan(Next(s, WsHead(|s.pcs|)), s.waitset, []))
    case SomeScan(x, rest, temp) => Scan(s, t, x, rest, temp)
    case SomePick(x, nx, rest, temp) =>
      if c == Pred(true) then TakeOut(Go(s, t, SomePush(x, nx, rest, temp)), x, OwedBy(t))
      else Go(s, t, SomeScan(nx, rest, temp))
    case SomePush(x, nx, rest, temp) =>
      Go(s.(links := PushLinks(s.links, TempHead(|s.pcs|, t), x)), t, SomeClear(x, nx, rest, [x] + temp))
    case SomeClear(x, nx, rest, temp) => Go(ClearFlag(s, x), t, SomeScan(nx, rest, temp))
    case AllSize => Go(s, t, if s.size == 0 then Idle else AllInit)
    case AllInit => Go(InitTemp(s, t), t, AllLock)
    case AllLock => TakeLock(s, t, AllFlush)
    case AllFlush => FlushAll(s, t)
    case AllBegin(temp) => Go(s, t, AllTest(Next(s, TempHead(|s.pcs|, t)), temp, temp))
    case AllTest(x, rest, temp) =>
      if !InPool(s, x) then Fault(s)
      else Go(s, t, if Next(s, x) == -1 then Unlock(temp) else AllClear(x, rest, temp))
    case AllClear(x, rest, temp) => Go(ClearFlag(s, x), t, AllNext(x, Later(rest), temp))
    case AllNext(x, rest, temp) => Go(s, t, AllTest(Next(s, x), rest, temp))
    case Unlock(temp) => FreeLock(s, t, PostBegin(temp))
    case PostBegin(temp) => Go(s, t, PostTest(Next(s, TempHead(|s.pcs|, t)), temp))
    case PostTest(x, rest) =>
      if !InPool(s, x) then Fault(s)
      else Go(s, t, if Next(s, x) == -1 then Idle else PostNode(x, Next(s, x), rest))
    case PostNode(x, nx, rest) => Go(PostTo(s, x), t, PostTest(nx, Later(rest)))
  }

  /** pop: the node that the head points to. */
  function PopFirst(s: State, t: nat): (r: State)
    requires Shaped(s) && t < |s.pcs|
    ensures |r.pcs| == |s.pcs|
  {
    var x := Next(s, WsHead(|s.pcs|));
    if !IsThread(s, x) then Fault(s) else TakeOut(Go(s, t, OneClear(x)), x, OwedBy(t))
  }

  /** not_last and get_next in the loop of notify_relaxed. */
  function Scan(s: State, t: nat, x: int, rest: seq<nat>, temp: seq<nat>): (r: State)
    requires t < |s.pcs|
    ensures |r.pcs| == |s.pcs|
  {
    if !InPool(s, x) then Fault(s)
    else Go(s, t, if Next(s, x) == -1 then Unlock(temp) else SomePick(x, Next(s, x), Later(rest), temp))
  }

  function Begin(s: State, t: nat, c: Choice): (r: State)
    requires t < |s.pcs|
    ensures |r.pcs| == |s.pcs|
  {
    match c
    case Prepare => Go(s, t, PrepCheck)
    case NotifyOne => Go(s, t, OneSize)
    case NotifySome => Go(s, t, SomeSize)
    case NotifyAll => Go(s, t, AllSize)
    case _ => s
  }

  /** flush_to: the whole wait set moves to the notifier's own list. */
  function FlushAll(s: State, t: nat): (r: State)
    requires Shaped(s) && t < |s.pcs|
    ensures |r.pcs| == |s.pcs|
  {
    var n := |s.pcs|;
    Go(s.(links := FlushLinks(s.links, s.size, WsHead(n), WsTail(n), TempHead(n, t), TempTail(n, t)),
          size := 0, waitset := [],
          spot := seq(|s.spot|, x requires 0 <= x < |s.spot| => if x in s.waitset then OwedBy(t) else s.spot[x])),
       t, AllBegin(s.waitset))
  }

  // ---- the invariant of flags, permits and bookkeeping lists

  /** The threads that notifier t has taken out and still has to post. */
  function Pending(pc: Pc): seq<nat> {
    match pc
    case OneClear(x) => [x]
    case OneUnlock(x) => [x]
    case OnePost(x) => [x]
    case SomeScan(_, _, temp) => temp
    case SomePick(_, _, _, temp) => temp
    case SomePush(x, _, _, temp) => [x] + temp
    case SomeClear(_, _, _, temp) => temp
    case AllBegin(temp) => temp
    case AllTest(_, _, temp) => temp
    case AllClear(_, _, temp) => temp
    case AllNext(_, _, temp) => temp
    case Unlock(temp) => temp
    case PostBegin(temp) => temp
    case PostTest(_, rest) => rest
    case PostNode(_, _, rest) => rest
    case _ => []
  }

  /** Those whose in_waitset_ flag it still has to clear. */
  function ToClear(pc: Pc): seq<nat> {
    match pc
    case OneClear(x) => [x]
    case SomePush(x, _, _, _) => [x]
    case SomeClear(x, _, _, _) => [x]
    case AllBegin(temp) => temp
    case AllTest(_, rest, _) => rest
    case AllClear(_, rest, _) => rest
    case AllNext(_, rest, _) => rest
    case _ => []
  }

  /** The nodes of the wait set that it still has to look at. */
  function ToVisit(pc: Pc): seq<nat> {
    match pc
    case SomeScan(_, rest, _) => rest
    case SomePick(x, _, rest, _) => [x] + rest
    case SomePush(_, _, rest, _) => rest
    case SomeClear(_, _, rest, _) => rest
    case _ => []
  }

  predicate HasLock(pc: Pc) {
    pc.PrepPush? || pc.PrepUnlock? || pc.CancelCheck? || pc.CancelUnlock?
    || pc.OnePop? || pc.OneNone? || pc.OneClear? || pc.OneUnlock?
    || pc.SomeBegin? || pc.SomeScan? || pc.SomePick? || pc.SomePush? || pc.SomeClear?
    || pc.AllFlush? || pc.AllBegin? || pc.AllTest? || pc.AllClear? || pc.AllNext? || pc.Unlock?
  }

  /** How a thread's node, its spurious_ flag and its place go together. */
  predicate PhaseOk(pc: Pc, p: Spot, spurious: bool) {
    match pc
    case PrepWait => !spurious && (p.OwedBy? || p.Posted?)
    case PrepMark => !spurious && p.Out?
    case PrepLock => !spurious && p.Out?
    case PrepPush => !spurious && p.Out?
    case PrepUnlock => !spurious && p.InSet?
    case Prepared => !spurious && !p.Out?
    case CommitLoad => !spurious && !p.Out?
    case CommitWait => !spurious && !p.Out?
    case CancelMark => !spurious && !p.Out?
    case CancelLoad => spurious && !p.Out?
    case CancelLock => spurious && !p.Out?
    case CancelCheck => spurious && !p.Out?
    case _ => if spurious then p.OwedBy? || p.Posted? else p.Out?
  }

  /** The in_waitset_ flag of thread t. */
  predicate FlagOk(s: State, t: nat)
    requires Shaped(s) && t < |s.pcs|
  {
    match s.spot[t]
    case Out => s.inWaitset[t] == (s.pcs[t].PrepLock? || s.pcs[t].PrepPush?)
    case InSet => s.inWaitset[t]
    case OwedBy(u) => u < |s.pcs| && t in Pending(s.pcs[u]) && (s.inWaitset[t] <==> t in ToClear(s.pcs[u]))
    case Posted => !s.inWaitset[t]
  }

  predicate WaiterInv(s: State, t: nat)
    requires Shaped(s) && t < |s.pcs|
  {
    && s.sema[t] == (if s.spot[t].Posted? then 1 else 0)
    && (s.spot[t].InSet? <==> t in s.waitset)
    && PhaseOk(s.pcs[t], s.spot[t], s.spurious[t])
    && FlagOk(s, t)
    && (s.lock == Thread(t) <==> HasLock(s.pcs[t]))
  }

  predicate NotifierInv(s: State, u: nat)
    requires Shaped(s) && u < |s.pcs|
  {
    var pc := s.pcs[u];
    && Distinct(Pending(pc)) && Distinct(ToClear(pc)) && Distinct(ToVisit(pc))
    && (forall x :: x in Pending(pc) ==> x < |s.spot| && s.spot[x] == OwedBy(u))
    && (forall x :: x in ToClear(pc) ==> x in Pending(pc))
    && (forall x :: x in ToVisit(pc) ==> x in s.waitset)
  }

  predicate Inv(s: State) {
    && Shaped(s) && !s.fault && Distinct(s.waitset)
    && (s.lock.Thread? ==> s.lock.t < |s.pcs|)
    && (forall x :: x in s.waitset ==> x < |s.pcs|)
    && (forall t :: 0 <= t < |s.pcs| ==> WaiterInv(s, t))
    && (forall u :: 0 <= u < |s.pcs| ==> NotifierInv(s, u))
  }

  /** The pointers do not matter to it. */
  lemma Repoint(s: State, links: Links, size: nat)
    requires Inv(s)
    ensures Inv(s.(links := links, size := size))
  {
    var r := s.(links := links, size := size);
    hide PhaseOk, Pending, ToClear, ToVisit, HasLock;
    forall t | 0 <= t < |s.pcs|
      ensures WaiterInv(r, t) && NotifierInv(r, t)
    {
      assert WaiterInv(s, t) && NotifierInv(s, t);
    }
  }

  // ---- the other threads

  /** r is s after a step of t that touches, besides t's own, only what belongs to waiter n. */
  ghost predicate Local(s: State, r: State, t: nat, n: nat) {
    && Shaped(s) && Shaped(r) && |r.pcs| == |s.pcs| && t < |s.pcs| && n < |s.pcs| && !r.fault
    && r.pcs == s.pcs[t := r.pcs[t]]
    && (forall x :: 0 <= x < |s.pcs| && x != t && x != n ==>
          r.inWaitset[x] == s.inWaitset[x] && r.spurious[x] == s.spurious[x] && r.sema[x] == s.sema[x]
            && r.spot[x] == s.spot[x])
    && (forall x: nat :: x != t && x != n ==> (x in r.waitset <==> x in s.waitset))
    && (forall x: nat :: x != t ==> (r.lock == Thread(x) <==> s.lock == Thread(x)))
  }

  /** The notifier still owes what it owed, waiter n apart. */
  predicate StillOwes(pc: Pc, pc': Pc, n: nat) {
    && (forall x :: x in Pending(pc) && x != n ==> x in Pending(pc'))
    && (forall x :: x in ToClear(pc) && x != n ==> x in ToClear(pc'))
    && (forall x :: x in ToClear(pc') && x != n ==> x in ToClear(pc))
  }

  lemma OtherWaiter(s: State, r: State, t: nat, n: nat, x: nat)
    requires Inv(s) && Local(s, r, t, n) && x < |s.pcs| && x != t && x != n && StillOwes(s.pcs[t], r.pcs[t], n)
    ensures WaiterInv(r, x)
  {
    assert WaiterInv(s, x);
    hide Pending, ToClear, HasLock, Inv, PhaseOk;
  }

  lemma OtherNotifier(s: State, r: State, t: nat, n: nat, u: nat)
    requires Inv(s) && Local(s, r, t, n) && u < |s.pcs| && u != t
    requires s.spot[n] == OwedBy(u) ==> r.spot[n] == s.spot[n]
    requires s.spot[t] == OwedBy(u) ==> r.spot[t] == s.spot[t]
    requires r.waitset == s.waitset || s.lock == Thread(t)
    ensures NotifierInv(r, u)
  {
    assert NotifierInv(s, u);
    assert WaiterInv(s, u);
    VisitNeedsLock(s.pcs[u]);
    hide Pending, ToClear, HasLock, Inv, PhaseOk, ToVisit, FlagOk;
  }

  lemma VisitNeedsLock(pc: Pc)
    ensures !HasLock(pc) ==> ToVisit(pc) == []
  {
  }

  lemma Finish(s: State, r: State, t: nat, n: nat)
    requires Inv(s) && Local(s, r, t, n) && StillOwes(s.pcs[t], r.pcs[t], n)
    requires s.spot[n] == r.spot[n] || !s.spot[n].OwedBy? || s.spot[n] == OwedBy(t)
    requires s.spot[t] == r.spot[t] || !s.spot[t].OwedBy? || s.spot[t] == OwedBy(t)
    requires r.waitset == s.waitset || s.lock == Thread(t)
    requires Distinct(r.waitset) && (r.lock.Thread? ==> r.lock.t < |r.pcs|)
    requires WaiterInv(r, t) && WaiterInv(r, n) && NotifierInv(r, t)
    ensures Inv(r)
  {
    assert forall x: nat :: x in r.waitset ==> x < |r.pcs|;
    hide Pending, ToClear, HasLock, PhaseOk, ToVisit, FlagOk, Local, StillOwes;
    assert Shaped(r) && |r.pcs| == |s.pcs| && !r.fault by {
      LocalShape(s, r, t, n);
    }
    hide Inv, WaiterInv, NotifierInv;
    forall x | 0 <= x < |r.pcs|
      ensures WaiterInv(r, x)
    {
      if x != t && x != n {
        OtherWaiter(s, r, t, n, x);
      }
    }
    forall u | 0 <= u < |r.pcs|
      ensures NotifierInv(r, u)
    {
      if u != t {
        OtherNotifier(s, r, t, n, u);
      }
    }
    InvIntro(r);
  }

  lemma LocalShape(s: State, r: State, t: nat, n: nat)
    requires Local(s, r, t, n)
    ensures Shaped(r) && |r.pcs| == |s.pcs| && !r.fault
  {
  }

  lemma InvIntro(r: State)
    requires Shaped(r) && !r.fault && Distinct(r.waitset) && (r.lock.Thread? ==> r.lock.t < |r.pcs|)
    requires forall x: nat :: x in r.waitset ==> x < |r.pcs|
    requires forall t :: 0 <= t < |r.pcs| ==> WaiterInv(r, t)
    requires forall u :: 0 <= u < |r.pcs| ==> NotifierInv(r, u)
    ensures Inv(r)
  {
  }

  lemma WaiterOf(s: State, t: nat)
    requires Inv(s) && t < |s.pcs|
    ensures WaiterInv(s, t) && NotifierInv(s, t)
  {
  }

  // ---- the steps keep the invariant

  /** Steps that move the thread on and change nothing else. */
  lemma JustGoes(s: State, t: nat, pc: Pc)
    requires Inv(s) && t < |s.pcs|
    requires Pending(pc) == Pending(s.pcs[t]) && ToClear(pc) == ToClear(s.pcs[t]) && HasLock(pc) == HasLock(s.pcs[t])
    requires PhaseOk(pc, s.spot[t], s.spurious[t])
    requires (pc.PrepLock? || pc.PrepPush?) == (s.pcs[t].PrepLock? || s.pcs[t].PrepPush?)
    requires Distinct(ToVisit(pc)) && forall x :: x in ToVisit(pc) ==> x in s.waitset
    ensures Inv(Go(s, t, pc))
  {
    WaiterOf(s, t);
    var r := Go(s, t, pc);
    assert Shaped(s);
    OwedElse(s, t);
    hide Inv, Pending, ToClear, HasLock, PhaseOk, ToVisit;
    assert WaiterInv(r, t) && NotifierInv(r, t);
    Basics(s);
    hide WaiterInv, NotifierInv, FlagOk, Distinct;
    Finish(s, r, t, t);
  }

  lemma Basics(s: State)
    requires Inv(s)
    ensures Shaped(s) && !s.fault && Distinct(s.waitset) && (s.lock.Thread? ==> s.lock.t < |s.pcs|)
  {
  }

  /** Whoever owes thread t its post is another thread, unless t has it in its own list. */
  lemma OwedElse(s: State, t: nat)
    requires Inv(s) && t < |s.pcs|
    ensures s.spot[t] == OwedBy(t) ==> t in Pending(s.pcs[t])
  {
    WaiterOf(s, t);
  }

  lemma KeepsBegin(s: State, t: nat, c: Choice)
    requires Inv(s) && t < |s.pcs| && s.pcs[t] == Idle
    ensures Inv(Begin(s, t, c))
  {
    WaiterOf(s, t);
    hide Inv;
    match c
    case Prepare => JustGoes(s, t, PrepCheck);
    case NotifyOne => JustGoes(s, t, OneSize);
    case NotifySome => JustGoes(s, t, SomeSize);
    case NotifyAll => JustGoes(s, t, AllSize);
    case _ =>
  }

  // ---- the invariant of the pointers

  /** b is the end of a. */
  predicate IsSuffix(a: seq<nat>, b: seq<nat>) {
    |b| <= |a| && a[|a| - |b|..] == b
  }

  ghost predicate TempWhole(s: State, u: nat, temp: seq<nat>) {
    Whole(s.links, TempHead(|s.pcs|, u), temp, TempTail(|s.pcs|, u))
  }

  /** Where the notifier is in the wait set: it still has to read rest, from pointer p on. */
  predicate Visiting(s: State, p: int, rest: seq<nat>) {
    IsSuffix(s.waitset, rest) && p == First(rest, WsTail(|s.pcs|))
  }

  /** The notifier's own list is whole until it posts; from then on what it still has to post is linked to its tail; and
      its node pointers lead to what it still has to read. */
  ghost predicate TempOk(s: State, u: nat)
    requires u < |s.pcs|
  {
    var t := TempTail(|s.pcs|, u);
    match s.pcs[u]
    case SomeLock => TempWhole(s, u, [])
    case SomeBegin => TempWhole(s, u, [])
    case SomeScan(p, rest, temp) => TempWhole(s, u, temp) && Visiting(s, p, rest)
    case SomePick(x, nx, rest, temp) =>
      TempWhole(s, u, temp) && IsSuffix(s.waitset, [x] + rest) && Visiting(s, nx, rest)
    case SomePush(x, nx, rest, temp) => TempWhole(s, u, temp) && Visiting(s, nx, rest)
    case SomeClear(x, nx, rest, temp) => TempWhole(s, u, temp) && Visiting(s, nx, rest)
    case AllLock => TempWhole(s, u, [])
    case AllFlush => TempWhole(s, u, [])
    case AllBegin(temp) => TempWhole(s, u, temp)
    case AllTest(p, rest, temp) => TempWhole(s, u, temp) && IsSuffix(temp, rest) && p == First(rest, t)
    case AllClear(x, rest, temp) => TempWhole(s, u, temp) && IsSuffix(temp, rest) && rest != [] && x == rest[0]
    case AllNext(x, rest, temp) => TempWhole(s, u, temp) && IsSuffix(temp, [x] + rest)
    case Unlock(temp) => TempWhole(s, u, temp)
    case PostBegin(temp) => TempWhole(s, u, temp)
    case PostTest(p, rest) => Rest(s.links, rest, t) && p == First(rest, t)
    case PostNode(x, nx, rest) => Rest(s.links, rest, t) && rest != [] && x == rest[0] && nx == First(rest[1..], t)
    case _ => true
  }

  /** The pool has its size, the wait set is whole, and every notifier's list is in order. */
  ghost predicate Chains(s: State) {
    && Sized(s.links) && |s.links.next| == 3 * |s.pcs| + 2 && s.size == |s.waitset|
    && Whole(s.links, WsHead(|s.pcs|), s.waitset, WsTail(|s.pcs|))
    && forall u :: 0 <= u < |s.pcs| ==> TempOk(s, u)
  }

  /** The nodes whose pointers a step of t may change: the wait set with its ends, its own node if that is in no
      list, and its own list with its ends. */
  predicate Mine(s: State, t: nat, x: int)
    requires Shaped(s) && t < |s.pcs|
  {
    var n := |s.pcs|;
    || x == WsHead(n) || x == WsTail(n) || x == TempHead(n, t) || x == TempTail(n, t)
    || (0 <= x < n && (x in s.waitset || x in Pending(s.pcs[t]) || (x == t && s.spot[t].Out?)))
  }

  /** The nodes of notifier u's own list. */
  function TempNodes(s: State, u: nat): seq<nat>
    requires u < |s.pcs|
  {
    [TempHead(|s.pcs|, u)] + Pending(s.pcs[u]) + [TempTail(|s.pcs|, u)]
  }

  lemma NotMine(s: State, t: nat, u: nat, x: nat)
    requires Inv(s) && t < |s.pcs| && u < |s.pcs| && u != t && x in TempNodes(s, u)
    ensures !Mine(s, t, x)
  {
    WaiterOf(s, u);
    WaiterOf(s, t);
    if x in Pending(s.pcs[u]) {
      WaiterOf(s, x);
    } else {
      assert x == TempHead(|s.pcs|, u) || x == TempTail(|s.pcs|, u);
    }
    hide Inv, Pending;
  }

  /** A step of t that changes the pointers of its own nodes only. */
  ghost predicate OwnPointers(s: State, r: State, t: nat)
    requires Shaped(s) && t < |s.pcs|
  {
    && Sized(r.links) && |r.links.next| == |s.links.next|
    && forall x :: 0 <= x < |s.links.next| && !Mine(s, t, x) ==>
         x < |s.links.prev| && r.links.next[x] == s.links.next[x] && r.links.prev[x] == s.links.prev[x]
  }

  lemma OwnFrom(s: State, r: State, t: nat, nodes: seq<nat>)
    requires Shaped(s) && t < |s.pcs| && Sized(s.links) && SameElsewhere(s.links, r.links, nodes)
    requires forall x :: x in nodes ==> Mine(s, t, x)
    ensures OwnPointers(s, r, t)
  {
    hide Mine;
  }

  lemma WholeKept(s: State, r: State, t: nat, u: nat, temp: seq<nat>)
    requires Inv(s) && t < |s.pcs| && u < |s.pcs| == |r.pcs| && u != t && OwnPointers(s, r, t)
    requires TempWhole(s, u, temp) && forall x :: x in temp ==> x in Pending(s.pcs[u])
    ensures TempWhole(r, u, temp)
  {
    forall x | x in [TempHead(|s.pcs|, u)] + temp + [TempTail(|s.pcs|, u)] && x < |s.links.next|
      ensures r.links.next[x] == s.links.next[x] && r.links.prev[x] == s.links.prev[x]
    {
      assert x in TempNodes(s, u);
      NotMine(s, t, u, x);
    }
    hide Inv, Whole, Mine;
    WholeFrame(s.links, r.links, TempHead(|s.pcs|, u), temp, TempTail(|s.pcs|, u));
  }

  lemma RestKept(s: State, r: State, t: nat, u: nat, rest: seq<nat>)
    requires Inv(s) && t < |s.pcs| && u < |s.pcs| == |r.pcs| && u != t && OwnPointers(s, r, t)
    requires Rest(s.links, rest, TempTail(|s.pcs|, u)) && forall x :: x in rest ==> x in Pending(s.pcs[u])
    ensures Rest(r.links, rest, TempTail(|s.pcs|, u))
  {
    forall x | x in rest + [TempTail(|s.pcs|, u)] && x < |s.links.next|
      ensures r.links.next[x] == s.links.next[x] && r.links.prev[x] == s.links.prev[x]
    {
      assert x in TempNodes(s, u);
      NotMine(s, t, u, x);
    }
    hide Inv, Rest, Mine;
    RestFrame(s.links, r.links, rest, TempTail(|s.pcs|, u));
  }

  /** Another notifier's list is not disturbed. */
  lemma TempKept(s: State, r: State, t: nat, u: nat)
    requires Inv(s) && t < |s.pcs| && u < |s.pcs| == |r.pcs| && u != t && OwnPointers(s, r, t)
    requires TempOk(s, u) && r.pcs[u] == s.pcs[u] && (s.lock == Thread(u) ==> r.waitset == s.waitset)
    ensures TempOk(r, u)
  {
    WaiterOf(s, u);
    hide Inv, OwnPointers, TempWhole, Rest, IsSuffix, First, NotifierInv;
    match s.pcs[u]
    case SomeLock => WholeKept(s, r, t, u, []);
    case SomeBegin => WholeKept(s, r, t, u, []);
    case SomeScan(_, _, temp) => WholeKept(s, r, t, u, temp);
    case SomePick(_, _, _, temp) => WholeKept(s, r, t, u, temp);
    case SomePush(_, _, _, temp) => WholeKept(s, r, t, u, temp);
    case SomeClear(_, _, _, temp) => WholeKept(s, r, t, u, temp);
    case AllLock => WholeKept(s, r, t, u, []);
    case AllFlush => WholeKept(s, r, t, u, []);
    case AllBegin(temp) => WholeKept(s, r, t, u, temp);
    case AllTest(_, _, temp) => WholeKept(s, r, t, u, temp);
    case AllClear(_, _, temp) => WholeKept(s, r, t, u, temp);
    case AllNext(_, _, temp) => WholeKept(s, r, t, u, temp);
    case Unlock(temp) => WholeKept(s, r, t, u, temp);
    case PostBegin(temp) => WholeKept(s, r, t, u, temp);
    case PostTest(_, rest) => RestKept(s, r, t, u, rest);
    case PostNode(_, _, rest) => RestKept(s, r, t, u, rest);
    case _ =>
  }

  /** A step of t keeps the pointers in order if it does so for the wait set and its own list. */
  lemma ChainsFinish(s: State, r: State, t: nat)
    requires Inv(s) && Chains(s) && t < |s.pcs| == |r.pcs| && r.pcs == s.pcs[t := r.pcs[t]]
    requires OwnPointers(s, r, t) && (r.waitset == s.waitset || s.lock == Thread(t))
    requires r.size == |r.waitset| && Whole(r.links, WsHead(|r.pcs|), r.waitset, WsTail(|r.pcs|)) && TempOk(r, t)
    ensures Chains(r)
  {
    assert Sized(r.links) && |r.links.next| == 3 * |r.pcs| + 2;
    hide Inv, TempOk, OwnPointers, Whole;
    forall u | 0 <= u < |r.pcs|
      ensures TempOk(r, u)
    {
      if u != t {
        TempKept(s, r, t, u);
      }
    }
  }

  /** A step that changes no pointers and not the wait set. */
  lemma ChainsSame(s: State, r: State, t: nat)
    requires Inv(s) && Chains(s) && t < |s.pcs| == |r.pcs| && r.pcs == s.pcs[t := r.pcs[t]]
    requires r.links == s.links && r.size == s.size && r.waitset == s.waitset && TempOk(r, t)
    ensures Chains(r)
  {
    assert Shaped(s);
    hide Inv, TempOk, Whole, Mine;
    assert OwnPointers(s, r, t);
    ChainsFinish(s, r, t);
  }

  /** The wait set does not contain the nodes of a notifier's own list. */
  lemma WsApart(s: State, t: nat, x: nat)
    requires Inv(s) && t < |s.pcs|
    requires x == TempHead(|s.pcs|, t) || x == TempTail(|s.pcs|, t) || x in Pending(s.pcs[t])
             || (x == t && s.spot[t].Out?)
    ensures x !in [WsHead(|s.pcs|)] + s.waitset + [WsTail(|s.pcs|)]
  {
    WaiterOf(s, t);
    if x in Pending(s.pcs[t]) {
      WaiterOf(s, x);
    }
    hide Inv, Pending;
  }

  // ---- what the pointers steer

  lemma ChainsWhole(s: State)
    requires Chains(s)
    ensures Sized(s.links) && |s.links.next| == 3 * |s.pcs| + 2 && s.size == |s.waitset|
    ensures Whole(s.links, WsHead(|s.pcs|), s.waitset, WsTail(|s.pcs|))
  {
  }

  lemma TempOf(s: State, u: nat)
    requires Chains(s) && u < |s.pcs|
    ensures TempOk(s, u)
  {
  }

  /** The rest of a path is a path. */
  lemma {:induction false} SuffixRest(l: Links, a: seq<nat>, b: seq<nat>, tail: nat)
    requires Rest(l, a, tail) && IsSuffix(a, b)
    ensures Rest(l, b, tail)
  {
    hide Rest;
    if |b| < |a| {
      RestStep(l, a, tail);
      assert a[1..][|a| - 1 - |b|..] == b;
      SuffixRest(l, a[1..], b, tail);
    } else {
      assert a == b;
    }
  }

  /** A traversal that has rest still to read, from p on, ends exactly when rest is empty, and else goes on to the
      next. */
  lemma Steered(l: Links, all: seq<nat>, rest: seq<nat>, tail: nat, p: int)
    requires Rest(l, all, tail) && IsSuffix(all, rest) && p == First(rest, tail)
    ensures 0 <= p < |l.next| && (Get(l.next, p) == -1 <==> rest == [])
    ensures rest != [] ==> p == rest[0] && Get(l.next, p) == First(rest[1..], tail) && IsSuffix(all, rest[1..])
  {
    SuffixRest(l, all, rest, tail);
    hide Rest;
    RestStep(l, rest, tail);
  }

  lemma WsRest(s: State)
    requires Chains(s)
    ensures Rest(s.links, s.waitset, WsTail(|s.pcs|)) && Next(s, WsHead(|s.pcs|)) == First(s.waitset, WsTail(|s.pcs|))
  {
    ChainsWhole(s);
    hide Chains, Whole, Rest;
    WholeIsRest(s.links, WsHead(|s.pcs|), s.waitset, WsTail(|s.pcs|));
  }

  lemma TempRest(s: State, u: nat, temp: seq<nat>)
    requires u < |s.pcs| && TempWhole(s, u, temp)
    ensures Rest(s.links, temp, TempTail(|s.pcs|, u))
            && Next(s, TempHead(|s.pcs|, u)) == First(temp, TempTail(|s.pcs|, u))
  {
    hide Whole, Rest;
    WholeIsRest(s.links, TempHead(|s.pcs|, u), temp, TempTail(|s.pcs|, u));
  }

  predicate Looks(pc: Pc) {
    pc.Prepared? || pc.CommitLoad? || pc.CancelLoad?
  }

  lemma KeepsLook(s: State, t: nat, c: Choice)
    requires Inv(s) && t < |s.pcs| && Looks(s.pcs[t])
    ensures Inv(Step(s, t, c))
  {
    WaiterOf(s, t);
    Basics(s);
    hide Inv;
    match s.pcs[t]
    case Prepared =>
      if c == Commit {
        JustGoes(s, t, CommitLoad);
      } else if c == Cancel {
        JustGoes(s, t, CancelMark);
      }
    case CommitLoad => JustGoes(s, t, if s.inWaitset[t] then CommitWait else CancelMark);
    case CancelLoad => JustGoes(s, t, if s.inWaitset[t] then CancelLock else Idle);
  }

  lemma KeepsSize(s: State, t: nat, c: Choice)
    requires Inv(s) && t < |s.pcs| && (s.pcs[t].OneSize? || s.pcs[t].SomeSize? || s.pcs[t].AllSize?)
    ensures Inv(Step(s, t, c))
  {
    WaiterOf(s, t);
    Basics(s);
    hide Inv, NotifierInv;
    match s.pcs[t]
    case OneSize => JustGoes(s, t, if s.size == 0 then Idle else OneLock);
    case SomeSize => JustGoes(s, t, if s.size == 0 then Idle else SomeInit);
    case AllSize => JustGoes(s, t, if s.size == 0 then Idle else AllInit);
  }

  /** Steps on the thread's own flags and permit. */
  lemma OwnFields(s: State, r: State, t: nat)
    requires Inv(s) && t < |s.pcs| && Shaped(r) && |r.pcs| == |s.pcs| && !r.fault
    requires r.pcs == s.pcs[t := r.pcs[t]] && r.waitset == s.waitset && r.lock == s.lock
    requires r.inWaitset == s.inWaitset[t := r.inWaitset[t]] && r.spurious == s.spurious[t := r.spurious[t]]
    requires r.sema == s.sema[t := r.sema[t]] && r.spot == s.spot[t := r.spot[t]]
    requires s.spot[t] == r.spot[t] || !s.spot[t].OwedBy?
    requires Pending(r.pcs[t]) == Pending(s.pcs[t]) == [] && ToClear(r.pcs[t]) == ToClear(s.pcs[t]) == []
    requires ToVisit(r.pcs[t]) == [] && HasLock(r.pcs[t]) == HasLock(s.pcs[t])
    requires WaiterInv(r, t)
    ensures Inv(r)
  {
    Basics(s);
    WaiterOf(s, t);
    hide Inv, Pending, ToClear, HasLock, PhaseOk, ToVisit;
    assert NotifierInv(r, t);
    Finish(s, r, t, t);
  }

  lemma KeepsFlags(s: State, t: nat, c: Choice)
    requires Inv(s) && t < |s.pcs| && (s.pcs[t].PrepCheck? || s.pcs[t].PrepMark? || s.pcs[t].CancelMark?)
    ensures Inv(Step(s, t, c))
  {
    WaiterOf(s, t);
    Basics(s);
    var r := Step(s, t, c);
    hide Inv, NotifierInv, HasLock;
    assert HasLock(r.pcs[t]) == HasLock(s.pcs[t]) by {
      FlagsLock(s.pcs[t], r.pcs[t]);
    }
    assert WaiterInv(r, t);
    OwnFields(s, r, t);
  }

  lemma FlagsLock(pc: Pc, pc': Pc)
    requires pc.PrepCheck? || pc.PrepMark? || pc.CancelMark?
    requires pc'.PrepWait? || pc'.PrepMark? || pc'.PrepLock? || pc'.CancelLoad?
    ensures !HasLock(pc) && !HasLock(pc')
  {
  }

  lemma KeepsConsume(s: State, t: nat, c: Choice)
    requires Inv(s) && t < |s.pcs| && (s.pcs[t].PrepWait? || s.pcs[t].CommitWait?)
    ensures Inv(Step(s, t, c))
  {
    WaiterOf(s, t);
    Basics(s);
    var r := Step(s, t, c);
    hide Inv;
    if s.sema[t] != 0 {
      assert WaiterInv(r, t);
      OwnFields(s, r, t);
    }
  }

  /** Taking or freeing the lock. */
  lemma LockMoves(s: State, t: nat, lock: Holder, pc: Pc)
    requires Inv(s) && t < |s.pcs| && (s.lock == Nobody || s.lock == Thread(t)) && (lock ==
               if HasLock(pc) then Thread(t) else Nobody)
    requires Pending(pc) == Pending(s.pcs[t]) && ToClear(pc) == ToClear(s.pcs[t])
    requires PhaseOk(pc, s.spot[t], s.spurious[t])
    requires s.spot[t].Out? ==> (pc.PrepLock? || pc.PrepPush?) == (s.pcs[t].PrepLock? || s.pcs[t].PrepPush?)
    requires Distinct(ToVisit(pc)) && forall x :: x in ToVisit(pc) ==> x in s.waitset
    ensures Inv(Go(s.(lock := lock), t, pc))
  {
    Basics(s);
    WaiterOf(s, t);
    var r := Go(s.(lock := lock), t, pc);
    hide Inv, Pending, ToClear, PhaseOk, ToVisit;
    assert WaiterInv(r, t) && NotifierInv(r, t);
    hide HasLock;
    Finish(s, r, t, t);
  }

  lemma KeepsLock(s: State, t: nat, c: Choice)
    requires Inv(s) && t < |s.pcs|
    requires s.pcs[t].PrepLock? || s.pcs[t].CancelLock? || s.pcs[t].OneLock? || s.pcs[t].SomeLock? || s.pcs[t].AllLock?
    ensures Inv(Step(s, t, c))
  {
    WaiterOf(s, t);
    Basics(s);
    hide Inv;
    if s.lock == Nobody {
      match s.pcs[t]
      case PrepLock => LockMoves(s, t, Thread(t), PrepPush);
      case CancelLock => LockMoves(s, t, Thread(t), CancelCheck);
      case OneLock => LockMoves(s, t, Thread(t), OnePop);
      case SomeLock => LockMoves(s, t, Thread(t), SomeBegin);
      case AllLock => LockMoves(s, t, Thread(t), AllFlush);
    }
  }

  predicate Unlocks(pc: Pc) {
    pc.PrepUnlock? || pc.CancelUnlock? || pc.OneNone? || pc.OneUnlock? || pc.Unlock?
  }

  lemma KeepsUnlock(s: State, t: nat, c: Choice)
    requires Inv(s) && t < |s.pcs| && Unlocks(s.pcs[t])
    ensures Inv(Step(s, t, c))
  {
    WaiterOf(s, t);
    Basics(s);
    hide Inv;
    match s.pcs[t]
    case PrepUnlock => LockMoves(s, t, Nobody, Prepared);
    case CancelUnlock => LockMoves(s, t, Nobody, Idle);
    case OneNone => LockMoves(s, t, Nobody, Idle);
    case OneUnlock(x) => LockMoves(s, t, Nobody, OnePost(x));
    case Unlock(temp) => LockMoves(s, t, Nobody, PostBegin(temp));
  }

  lemma KeepsPush(s: State, t: nat, c: Choice)
    requires Inv(s) && t < |s.pcs| && s.pcs[t].PrepPush?
    ensures Inv(Step(s, t, c))
  {
    WaiterOf(s, t);
    Basics(s);
    var r := Step(s, t, c);
    assert t !in s.waitset;
    assert Distinct(r.waitset);
    hide Inv;
    assert WaiterInv(r, t) && NotifierInv(r, t);
    Finish(s, r, t, t);
  }

  /** The flag is set under the lock only while the node is in the wait set. */
  lemma FlagMeansIn(s: State, t: nat)
    requires Inv(s) && t < |s.pcs| && s.pcs[t].CancelCheck? && s.inWaitset[t]
    ensures s.spot[t].InSet? && t in s.waitset
  {
    WaiterOf(s, t);
    if s.spot[t].OwedBy? {
      WaiterOf(s, s.spot[t].u);
      ClearNeedsLock(s.pcs[s.spot[t].u]);
    }
    hide Inv, Pending, ToClear;
  }

  lemma ClearNeedsLock(pc: Pc)
    ensures !HasLock(pc) ==> ToClear(pc) == []
  {
  }

  lemma KeepsCancel(s: State, t: nat, c: Choice)
    requires Inv(s) && t < |s.pcs| && s.pcs[t].CancelCheck?
    ensures Inv(Step(s, t, c))
  {
    WaiterOf(s, t);
    Basics(s);
    if s.inWaitset[t] {
      FlagMeansIn(s, t);
      var r := Step(s, t, c);
      hide Inv;
      assert WaiterInv(r, t) && NotifierInv(r, t);
      Finish(s, r, t, t);
    } else {
      hide Inv;
      JustGoes(s, t, CancelUnlock);
    }
  }

  /** A thread in the wait set is a waiter, not a notifier. */
  lemma WaiterWaits(s: State, n: nat)
    requires Inv(s) && n in s.waitset
    ensures n < |s.pcs| && s.spot[n].InSet? && s.inWaitset[n] && s.sema[n] == 0
  {
    assert n < |s.pcs|;
    WaiterOf(s, n);
    hide Inv;
  }

  /** A notifier with the lock takes node n out of the wait set. */
  ghost predicate TakesX(s: State, t: nat, n: nat, pc: Pc) {
    && Inv(s) && t < |s.pcs| && n in s.waitset && n != t && s.lock == Thread(t) && HasLock(pc)
    && Pending(pc) == [n] + Pending(s.pcs[t]) && ToClear(pc) == [n] && ToClear(s.pcs[t]) == []
    && PhaseOk(pc, s.spot[t], s.spurious[t]) && !pc.PrepLock? && !pc.PrepPush? && !s.pcs[t].PrepLock?
    && !s.pcs[t].PrepPush?
    && Distinct(ToVisit(pc)) && (forall x :: x in ToVisit(pc) ==> x in s.waitset && x != n)
  }

  lemma TakenWaiters(s: State, t: nat, n: nat, pc: Pc)
    requires TakesX(s, t, n, pc)
    ensures var r := TakeOut(Go(s, t, pc), n, OwedBy(t));
            && n < |s.pcs| && Shaped(s) && s.spot[n].InSet? && Shaped(r) && |r.pcs| == |s.pcs| && WaiterInv(r, n)
            && WaiterInv(r, t)
  {
    WaiterOf(s, t);
    Basics(s);
    WaiterWaits(s, n);
    WaiterOf(s, n);
    hide Inv, HasLock, NotifierInv, Index, ToVisit, Pending, ToClear;
    assert n in Pending(pc) && n in ToClear(pc);
  }

  lemma TakesOut(s: State, t: nat, n: nat, pc: Pc)
    requires TakesX(s, t, n, pc)
    ensures Shaped(s) && Inv(TakeOut(Go(s, t, pc), n, OwedBy(t)))
  {
    WaiterOf(s, t);
    Basics(s);
    TakenWaiters(s, t, n, pc);
    var r := TakeOut(Go(s, t, pc), n, OwedBy(t));
    hide Inv, PhaseOk, HasLock, WaiterInv, FlagOk;
    assert n !in Pending(s.pcs[t]);
    assert r.waitset == Without(s.waitset, Index(s.waitset, n));
    hide Index, ToVisit, Pending, ToClear;
    assert NotifierInv(r, t);
    Finish(s, r, t, n);
  }

  lemma DistinctTail(n: nat, tail: seq<nat>)
    requires Distinct([n] + tail)
    ensures n !in tail && Distinct(tail)
  {
    var all := [n] + tail;
    assert all[1..] == tail;
    forall i | 0 <= i < |tail|
      ensures tail[i] == all[i + 1] && tail[i] != n
    {
      assert all[0] != all[i + 1];
    }
  }

  /** A notifier clears the flag of a node it has taken out. */
  ghost predicate ClearsX(s: State, t: nat, n: nat, pc: Pc) {
    && Inv(s) && t < |s.pcs| && HasLock(s.pcs[t]) && HasLock(pc)
    && ToClear(s.pcs[t]) == [n] + ToClear(pc) && Pending(pc) == Pending(s.pcs[t])
    && PhaseOk(pc, s.spot[t], s.spurious[t]) && !pc.PrepLock? && !pc.PrepPush? && !s.pcs[t].PrepLock?
    && !s.pcs[t].PrepPush?
    && Distinct(ToVisit(pc)) && (forall x :: x in ToVisit(pc) ==> x in s.waitset)
  }

  lemma ClearWaiters(s: State, t: nat, n: nat, pc: Pc)
    requires ClearsX(s, t, n, pc)
    ensures var r := Go(ClearFlag(s, n), t, pc);
            && Shaped(s) && n < |s.pcs| && s.spot[n] == OwedBy(t) && Shaped(r) && WaiterInv(r, n) && WaiterInv(r, t)
  {
    WaiterOf(s, t);
    assert n in ToClear(s.pcs[t]);
    WaiterOf(s, n);
    DistinctTail(n, ToClear(pc));
    hide Inv, HasLock, ToVisit, Pending, ToClear, Distinct, PhaseOk;
  }

  lemma Clears(s: State, t: nat, n: nat, pc: Pc)
    requires ClearsX(s, t, n, pc)
    ensures Shaped(s) && n < |s.inWaitset| && Inv(Go(ClearFlag(s, n), t, pc))
  {
    WaiterOf(s, t);
    Basics(s);
    ClearWaiters(s, t, n, pc);
    var r := Go(ClearFlag(s, n), t, pc);
    DistinctTail(n, ToClear(pc));
    hide Inv, HasLock, ToVisit, Pending, ToClear, Distinct, PhaseOk, WaiterInv, FlagOk;
    assert NotifierInv(r, t);
    Finish(s, r, t, n);
  }

  /** A notifier has no node in the wait set, and none in its own list. */
  lemma NotifierIsOut(s: State, t: nat)
    requires Inv(s) && t < |s.pcs|
    requires s.pcs[t].OnePop? || s.pcs[t].SomeScan? || s.pcs[t].SomePick? || s.pcs[t].AllFlush?
    ensures t !in s.waitset && s.lock == Thread(t)
  {
    WaiterOf(s, t);
    hide Inv;
  }

  /** The head's next pointer leads to the first node of the wait set. */
  lemma PopIs(s: State, t: nat, c: Choice)
    requires Inv(s) && Chains(s) && t < |s.pcs| && s.pcs[t].OnePop? && s.size != 0
    ensures s.waitset != [] && Shaped(s)
    ensures Step(s, t, c) == TakeOut(Go(s, t, OneClear(s.waitset[0])), s.waitset[0], OwedBy(t))
  {
    Basics(s);
    ChainsWhole(s);
    WsRest(s);
    assert s.waitset[0] in s.waitset;
    assert s.waitset[0] < |s.pcs|;
    hide Inv, Chains, Whole, Rest, TakeOut;
  }

  lemma KeepsOnePop(s: State, t: nat, c: Choice)
    requires Inv(s) && Chains(s) && t < |s.pcs| && s.pcs[t].OnePop?
    ensures Shaped(s) && Inv(Step(s, t, c))
  {
    WaiterOf(s, t);
    Basics(s);
    NotifierIsOut(s, t);
    hide Inv, NotifierInv, Chains;
    if s.size == 0 {
      JustGoes(s, t, OneNone);
    } else {
      PopIs(s, t, c);
      hide Step, PopFirst, TakeOut;
      TakesOut(s, t, s.waitset[0], OneClear(s.waitset[0]));
    }
  }

  // ---- notify_relaxed

  lemma KeepsInit(s: State, t: nat, c: Choice)
    requires Inv(s) && t < |s.pcs| && (s.pcs[t].SomeInit? || s.pcs[t].AllInit?)
    ensures Shaped(s) && Inv(Step(s, t, c))
  {
    Basics(s);
    var m := InitTemp(s, t);
    Repoint(s, m.links, s.size);
    assert m == s.(links := m.links, size := s.size);
    WaiterOf(m, t);
    hide Inv, NotifierInv, InitTemp;
    match s.pcs[t]
    case SomeInit => JustGoes(m, t, SomeLock);
    case AllInit => JustGoes(m, t, AllLock);
  }

  lemma KeepsSomeBegin(s: State, t: nat, c: Choice)
    requires Inv(s) && t < |s.pcs| && s.pcs[t].SomeBegin?
    ensures Shaped(s) && Inv(Step(s, t, c))
  {
    Basics(s);
    WaiterOf(s, t);
    hide Inv, NotifierInv;
    JustGoes(s, t, SomeScan(Next(s, WsHead(|s.pcs|)), s.waitset, []));
  }

  /** Where the loop of notify_relaxed is after it has read the first of rest. */
  function Picks(s: State, rest: seq<nat>, temp: seq<nat>): Pc
    requires rest != []
  {
    SomePick(rest[0], First(rest[1..], WsTail(|s.pcs|)), rest[1..], temp)
  }

  lemma ScanStep(s: State, t: nat, c: Choice)
    requires Shaped(s) && t < |s.pcs| && s.pcs[t].SomeScan?
    ensures Step(s, t, c) == Scan(s, t, s.pcs[t].p, s.pcs[t].rest, s.pcs[t].temp)
  {
    hide Scan;
  }

  /** The loop of notify_relaxed ends when the rest is empty, and reads its first node otherwise. */
  lemma ScanIs(s: State, t: nat)
    requires Chains(s) && t < |s.pcs| && s.pcs[t].SomeScan?
    ensures var (p, rest, temp) := (s.pcs[t].p, s.pcs[t].rest, s.pcs[t].temp);
            && (rest == [] ==> Scan(s, t, p, rest, temp) == Go(s, t, Unlock(temp)))
            && (rest != [] ==>
                  Scan(s, t, p, rest, temp) == Go(s, t, Picks(s, rest, temp)) && IsSuffix(s.waitset, rest[1..]))
  {
    TempOf(s, t);
    WsRest(s);
    hide Chains, Rest, TempWhole;
    Steered(s.links, s.waitset, s.pcs[t].rest, WsTail(|s.pcs|), s.pcs[t].p);
  }

  lemma KeepsScan(s: State, t: nat, c: Choice)
    requires Inv(s) && Chains(s) && t < |s.pcs| && s.pcs[t].SomeScan?
    ensures Shaped(s) && Inv(Step(s, t, c))
  {
    Basics(s);
    ScanStep(s, t, c);
    ScanIs(s, t);
    WaiterOf(s, t);
    hide Inv, Scan, Step, Chains, FlagOk;
    var (rest, temp) := (s.pcs[t].rest, s.pcs[t].temp);
    if rest == [] {
      JustGoes(s, t, Unlock(temp));
    } else {
      assert rest == [rest[0]] + rest[1..];
      JustGoes(s, t, Picks(s, rest, temp));
    }
  }

  lemma KeepsPick(s: State, t: nat, c: Choice)
    requires Inv(s) && t < |s.pcs| && s.pcs[t].SomePick?
    ensures Shaped(s) && Inv(Step(s, t, c))
  {
    WaiterOf(s, t);
    Basics(s);
    NotifierIsOut(s, t);
    var (x, nx) := (s.pcs[t].x, s.pcs[t].nx);
    var (rest, temp) := (s.pcs[t].rest, s.pcs[t].temp);
    DistinctTail(x, rest);
    assert x in ToVisit(s.pcs[t]);
    assert forall y :: y in rest ==> y in ToVisit(s.pcs[t]);
    hide Inv, FlagOk, NotifierInv, TakeOut;
    if c == Pred(true) {
      TakesOut(s, t, x, SomePush(x, nx, rest, temp));
    } else {
      JustGoes(s, t, SomeScan(nx, rest, temp));
    }
  }

  lemma KeepsSomePush(s: State, t: nat, c: Choice)
    requires Inv(s) && t < |s.pcs| && s.pcs[t].SomePush?
    ensures Shaped(s) && Inv(Step(s, t, c))
  {
    Basics(s);
    var (x, nx) := (s.pcs[t].x, s.pcs[t].nx);
    var (rest, temp) := (s.pcs[t].rest, s.pcs[t].temp);
    var m := s.(links := PushLinks(s.links, TempHead(|s.pcs|, t), x));
    Repoint(s, m.links, s.size);
    assert m == s.(links := m.links, size := s.size);
    WaiterOf(m, t);
    hide Inv, FlagOk, PushLinks;
    JustGoes(m, t, SomeClear(x, nx, rest, [x] + temp));
  }

  // ---- the flags

  lemma KeepsOneClear(s: State, t: nat, c: Choice)
    requires Inv(s) && t < |s.pcs| && s.pcs[t].OneClear?
    ensures Shaped(s) && Inv(Step(s, t, c))
  {
    WaiterOf(s, t);
    Basics(s);
    hide Inv, FlagOk, ClearFlag;
    Clears(s, t, s.pcs[t].x, OneUnlock(s.pcs[t].x));
  }

  lemma KeepsSomeClear(s: State, t: nat, c: Choice)
    requires Inv(s) && t < |s.pcs| && s.pcs[t].SomeClear?
    ensures Shaped(s) && Inv(Step(s, t, c))
  {
    WaiterOf(s, t);
    Basics(s);
    hide Inv, FlagOk, ClearFlag;
    Clears(s, t, s.pcs[t].x, SomeScan(s.pcs[t].nx, s.pcs[t].rest, s.pcs[t].temp));
  }

  // ---- notify_all_relaxed

  lemma KeepsAllBegin(s: State, t: nat, c: Choice)
    requires Inv(s) && t < |s.pcs| && s.pcs[t].AllBegin?
    ensures Shaped(s) && Inv(Step(s, t, c))
  {
    WaiterOf(s, t);
    Basics(s);
    hide Inv, FlagOk;
    var temp := s.pcs[t].temp;
    JustGoes(s, t, AllTest(Next(s, TempHead(|s.pcs|, t)), temp, temp));
  }

  /** The clearing loop of notify_all ends when the rest is empty, and goes to its first node otherwise. */
  lemma AllTestIs(s: State, t: nat, c: Choice)
    requires Shaped(s) && Chains(s) && t < |s.pcs| && s.pcs[t].AllTest?
    ensures var (rest, temp) := (s.pcs[t].rest, s.pcs[t].temp);
            && (rest == [] ==> Step(s, t, c) == Go(s, t, Unlock(temp)))
            && (rest != [] ==> Step(s, t, c) == Go(s, t, AllClear(rest[0], rest, temp)))
  {
    TempOf(s, t);
    var (p, rest, temp) := (s.pcs[t].p, s.pcs[t].rest, s.pcs[t].temp);
    hide Chains, Rest;
    assert TempWhole(s, t, temp);
    hide TempWhole;
    TempRest(s, t, temp);
    Steered(s.links, temp, rest, TempTail(|s.pcs|, t), p);
  }

  lemma KeepsAllTest(s: State, t: nat, c: Choice)
    requires Inv(s) && Chains(s) && t < |s.pcs| && s.pcs[t].AllTest?
    ensures Shaped(s) && Inv(Step(s, t, c))
  {
    WaiterOf(s, t);
    Basics(s);
    AllTestIs(s, t, c);
    var (rest, temp) := (s.pcs[t].rest, s.pcs[t].temp);
    hide Inv, Step, Chains, FlagOk;
    JustGoes(s, t, if rest == [] then Unlock(temp) else AllClear(rest[0], rest, temp));
  }

  lemma KeepsAllClear(s: State, t: nat, c: Choice)
    requires Inv(s) && Chains(s) && t < |s.pcs| && s.pcs[t].AllClear?
    ensures Shaped(s) && Inv(Step(s, t, c))
  {
    WaiterOf(s, t);
    Basics(s);
    TempOf(s, t);
    var (x, rest, temp) := (s.pcs[t].x, s.pcs[t].rest, s.pcs[t].temp);
    hide Inv, FlagOk, Chains, TempWhole, ClearFlag;
    assert rest == [x] + rest[1..];
    Clears(s, t, x, AllNext(x, rest[1..], temp));
  }

  lemma KeepsAllNext(s: State, t: nat, c: Choice)
    requires Inv(s) && t < |s.pcs| && s.pcs[t].AllNext?
    ensures Shaped(s) && Inv(Step(s, t, c))
  {
    WaiterOf(s, t);
    Basics(s);
    hide Inv, FlagOk;
    JustGoes(s, t, AllTest(Next(s, s.pcs[t].x), s.pcs[t].rest, s.pcs[t].temp));
  }

  lemma FlushShape(s: State, t: nat)
    requires Shaped(s) && t < |s.pcs|
    ensures var r := FlushAll(s, t);
            && Shaped(r) && |r.pcs| == |s.pcs| && r.pcs == s.pcs[t := AllBegin(s.waitset)] && r.lock == s.lock
            && r.waitset == []
            && r.sema == s.sema && r.inWaitset == s.inWaitset && r.spurious == s.spurious && r.fault == s.fault
            && forall x :: 0 <= x < |s.pcs| ==> r.spot[x] == if x in s.waitset then OwedBy(t) else s.spot[x]
  {
  }

  /** A waiter in the wait set without the lock may as well be owed its post. */
  lemma MayBeOwed(pc: Pc, u: nat, spurious: bool)
    requires PhaseOk(pc, InSet, spurious) && !HasLock(pc)
    ensures PhaseOk(pc, OwedBy(u), spurious) && Pending(pc) == [] && ToClear(pc) == []
  {
  }

  lemma FlushOwes(w: seq<nat>)
    ensures Pending(AllFlush) == [] && Pending(AllBegin(w)) == ToClear(AllBegin(w)) == w
  {
  }

  lemma FlushFlag(s: State, t: nat, x: nat)
    requires Inv(s) && t < |s.pcs| && s.pcs[t].AllFlush? && x < |s.pcs|
    ensures Shaped(s) && Shaped(FlushAll(s, t)) && FlagOk(FlushAll(s, t), x)
  {
    hide PhaseOk, HasLock, NotifierInv, Distinct, Pending, ToClear;
    Basics(s);
    FlushShape(s, t);
    WaiterOf(s, x);
    hide Inv, FlushAll;
    FlushOwes(s.waitset);
    if s.spot[x].OwedBy? {
      assert s.spot[x].u != t;
    }
  }

  lemma FlushWaiter(s: State, t: nat, x: nat)
    requires Inv(s) && t < |s.pcs| && s.pcs[t].AllFlush? && x < |s.pcs|
    ensures Shaped(s) && Shaped(FlushAll(s, t)) && WaiterInv(FlushAll(s, t), x)
  {
    Basics(s);
    FlushShape(s, t);
    FlushFlag(s, t, x);
    WaiterOf(s, x);
    WaiterOf(s, t);
    assert HasLock(s.pcs[t]) && HasLock(AllBegin(s.waitset));
    assert x != t ==> !HasLock(s.pcs[x]);
    assert PhaseOk(s.pcs[t], s.spot[t], s.spurious[t]) ==>
        PhaseOk(AllBegin(s.waitset), s.spot[t], s.spurious[t]) && !s.spot[t].InSet?;
    hide Inv, FlushAll, PhaseOk, HasLock, FlagOk;
    if x in s.waitset {
      MayBeOwed(s.pcs[x], t, s.spurious[x]);
    }
  }

  lemma FlushNotifier(s: State, t: nat, u: nat)
    requires Inv(s) && t < |s.pcs| && s.pcs[t].AllFlush? && u < |s.pcs|
    ensures Shaped(s) && Shaped(FlushAll(s, t)) && NotifierInv(FlushAll(s, t), u)
  {
    Basics(s);
    FlushShape(s, t);
    assert forall x: nat :: x in s.waitset ==> x < |s.pcs|;
    WaiterOf(s, u);
    WaiterOf(s, t);
    forall x | x in Pending(s.pcs[u])
      ensures x !in s.waitset
    {
      WaiterOf(s, x);
    }
    VisitNeedsLock(s.pcs[u]);
    hide Inv, FlagOk, PhaseOk, FlushAll;
    assert HasLock(s.pcs[t]);
    if u == t {
      FlushOwes(s.waitset);
    } else {
      hide Pending, ToClear, ToVisit, HasLock;
    }
  }

  lemma KeepsFlush(s: State, t: nat, c: Choice)
    requires Inv(s) && t < |s.pcs| && s.pcs[t].AllFlush?
    ensures Inv(Step(s, t, c))
  {
    Basics(s);
    WaiterOf(s, t);
    var r := FlushAll(s, t);
    hide Inv;
    forall x | 0 <= x < |r.pcs|
      ensures WaiterInv(r, x)
    {
      FlushWaiter(s, t, x);
    }
    forall u | 0 <= u < |r.pcs|
      ensures NotifierInv(r, u)
    {
      FlushNotifier(s, t, u);
    }
    hide WaiterInv, NotifierInv;
    InvIntro(r);
  }

  // ---- the posts

  lemma KeepsPostBegin(s: State, t: nat, c: Choice)
    requires Inv(s) && t < |s.pcs| && s.pcs[t].PostBegin?
    ensures Shaped(s) && Inv(Step(s, t, c))
  {
    WaiterOf(s, t);
    Basics(s);
    hide Inv, FlagOk;
    JustGoes(s, t, PostTest(Next(s, TempHead(|s.pcs|, t)), s.pcs[t].temp));
  }

  /** The posting loop ends when nobody is left to post, and goes to the first that is left otherwise. */
  lemma PostTestIs(s: State, t: nat, c: Choice)
    requires Shaped(s) && Chains(s) && t < |s.pcs| && s.pcs[t].PostTest?
    ensures var rest := s.pcs[t].rest;
            && (rest == [] ==> Step(s, t, c) == Go(s, t, Idle))
            && (rest != [] ==>
                  Step(s, t, c) == Go(s, t, PostNode(rest[0], First(rest[1..], TempTail(|s.pcs|, t)), rest)))
  {
    TempOf(s, t);
    var (p, rest) := (s.pcs[t].p, s.pcs[t].rest);
    hide Chains, Rest;
    Steered(s.links, rest, rest, TempTail(|s.pcs|, t), p);
  }

  lemma KeepsPostTest(s: State, t: nat, c: Choice)
    requires Inv(s) && Chains(s) && t < |s.pcs| && s.pcs[t].PostTest?
    ensures Shaped(s) && Inv(Step(s, t, c))
  {
    WaiterOf(s, t);
    Basics(s);
    PostTestIs(s, t, c);
    var rest := s.pcs[t].rest;
    hide Inv, Step, Chains, FlagOk;
    JustGoes(s, t, if rest == [] then Idle else PostNode(rest[0], First(rest[1..], TempTail(|s.pcs|, t)), rest));
  }

  /** A notifier that has freed the lock posts node x. */
  ghost predicate PostsX(s: State, t: nat, x: nat, pc: Pc) {
    && Inv(s) && t < |s.pcs| && !HasLock(s.pcs[t]) && !HasLock(pc)
    && Pending(s.pcs[t]) == [x] + Pending(pc) && ToClear(s.pcs[t]) == ToClear(pc) == [] && ToVisit(pc) == []
    && (s.pcs[t].OnePost? || s.pcs[t].PostNode?) && (pc.Idle? || pc.PostTest?)
  }

  lemma PostedIs(s: State, t: nat, x: nat, pc: Pc)
    requires PostsX(s, t, x, pc)
    ensures Shaped(s) && x < |s.pcs| && s.spot[x] == OwedBy(t) && Shaped(Go(PostTo(s, x), t, pc))
  {
    WaiterOf(s, t);
    assert x in Pending(s.pcs[t]);
    hide Inv, FlagOk, PhaseOk;
  }

  lemma PostFlags(s: State, t: nat, x: nat, pc: Pc)
    requires PostsX(s, t, x, pc)
    ensures Shaped(s) && x < |s.pcs| && Shaped(Go(PostTo(s, x), t, pc))
            && FlagOk(Go(PostTo(s, x), t, pc), x) && FlagOk(Go(PostTo(s, x), t, pc), t)
  {
    PostedIs(s, t, x, pc);
    WaiterOf(s, t);
    WaiterOf(s, x);
    hide Inv, PhaseOk, HasLock;
  }

  lemma PostWaiters(s: State, t: nat, x: nat, pc: Pc)
    requires PostsX(s, t, x, pc)
    ensures Shaped(s) && x < |s.pcs| && Shaped(Go(PostTo(s, x), t, pc))
            && WaiterInv(Go(PostTo(s, x), t, pc), x) && WaiterInv(Go(PostTo(s, x), t, pc), t)
  {
    PostedIs(s, t, x, pc);
    WaiterOf(s, t);
    WaiterOf(s, x);
    PostFlags(s, t, x, pc);
    hide Inv, FlagOk;
  }

  lemma PostLocal(s: State, t: nat, x: nat, pc: Pc)
    requires PostsX(s, t, x, pc)
    ensures var r := Go(PostTo(s, x), t, pc);
            && x < |s.pcs| && Shaped(s) && Local(s, r, t, x) && StillOwes(s.pcs[t], r.pcs[t], x)
            && s.spot[x] == OwedBy(t) && (x != t ==> r.spot[t] == s.spot[t]) && r.waitset == s.waitset
            && r.lock == s.lock
  {
    PostedIs(s, t, x, pc);
    Basics(s);
    hide Inv, FlagOk, PhaseOk;
  }

  lemma Posts(s: State, t: nat, x: nat, pc: Pc)
    requires PostsX(s, t, x, pc)
    ensures Shaped(s) && Inv(Go(PostTo(s, x), t, pc))
  {
    PostedIs(s, t, x, pc);
    WaiterOf(s, t);
    Basics(s);
    DistinctTail(x, Pending(pc));
    assert forall y :: y in Pending(pc) ==> y in Pending(s.pcs[t]) && y != x;
    var r := Go(PostTo(s, x), t, pc);
    hide Inv, FlagOk, PhaseOk;
    assert NotifierInv(r, t);
    PostWaiters(s, t, x, pc);
    PostLocal(s, t, x, pc);
    hide HasLock, WaiterInv, NotifierInv, Local, StillOwes, PostTo, Pending, PostsX;
    Finish(s, r, t, x);
  }

  lemma KeepsOnePost(s: State, t: nat, c: Choice)
    requires Inv(s) && t < |s.pcs| && s.pcs[t].OnePost?
    ensures Shaped(s) && Inv(Step(s, t, c))
  {
    Basics(s);
    hide Inv, PostTo;
    Posts(s, t, s.pcs[t].x, Idle);
  }

  lemma KeepsPostNode(s: State, t: nat, c: Choice)
    requires Inv(s) && Chains(s) && t < |s.pcs| && s.pcs[t].PostNode?
    ensures Shaped(s) && Inv(Step(s, t, c))
  {
    Basics(s);
    TempOf(s, t);
    var (x, nx, rest) := (s.pcs[t].x, s.pcs[t].nx, s.pcs[t].rest);
    hide Inv, Chains, Rest, PostTo;
    assert rest == [x] + rest[1..];
    Posts(s, t, x, PostTest(nx, rest[1..]));
  }

  // ---- the steps keep the pointers in order

  /** Places where a thread has no list of its own. */
  predicate Plain(pc: Pc) {
    || pc.Idle? || pc.PrepCheck? || pc.PrepWait? || pc.PrepMark? || pc.PrepLock? || pc.PrepPush? || pc.PrepUnlock?
    || pc.Prepared? || pc.CommitLoad? || pc.CommitWait? || pc.CancelMark? || pc.CancelLoad? || pc.CancelLock?
    || pc.CancelCheck? || pc.CancelUnlock? || pc.OneSize? || pc.OneLock? || pc.OnePop? || pc.OneNone? || pc.OneClear?
    || pc.OneUnlock? || pc.OnePost? || pc.SomeSize? || pc.SomeInit? || pc.AllSize? || pc.AllInit?
  }

  lemma PlainOk(s: State, u: nat)
    requires u < |s.pcs| && Plain(s.pcs[u])
    ensures TempOk(s, u)
  {
  }

  /** A step that moves t to a place without a list, or nowhere, and leaves the pointers alone. */
  ghost predicate PlainMove(s: State, r: State, t: nat)
    requires t < |s.pcs|
  {
    && r.links == s.links && r.size == s.size && r.waitset == s.waitset && |r.pcs| == |s.pcs|
    && r.pcs == s.pcs[t := r.pcs[t]] && (r.pcs[t] == s.pcs[t] || Plain(r.pcs[t]))
  }

  lemma PlainPrepare(s: State, t: nat, c: Choice)
    requires Shaped(s) && t < |s.pcs|
    requires var pc := s.pcs[t];
             pc.PrepCheck? || pc.PrepWait? || pc.PrepMark? || pc.PrepLock? || pc.PrepUnlock? || pc.Prepared?
    ensures PlainMove(s, Step(s, t, c), t)
  {
  }

  lemma PlainCancel(s: State, t: nat, c: Choice)
    requires Shaped(s) && t < |s.pcs|
    requires var pc := s.pcs[t];
             pc.CommitLoad? || pc.CommitWait? || pc.CancelMark? || pc.CancelLoad? || pc.CancelLock? || pc.CancelUnlock?
    ensures PlainMove(s, Step(s, t, c), t)
  {
  }

  lemma PlainNotify(s: State, t: nat, c: Choice)
    requires Shaped(s) && t < |s.pcs|
    requires var pc := s.pcs[t];
             || pc.OneSize? || pc.OneLock? || pc.OneNone? || pc.OneClear? || pc.OneUnlock? || pc.OnePost?
             || pc.SomeSize?
             || pc.AllSize?
    ensures PlainMove(s, Step(s, t, c), t)
  {
  }

  lemma PlainBegin(s: State, t: nat, c: Choice)
    requires Shaped(s) && t < |s.pcs| && s.pcs[t].Idle?
    ensures PlainMove(s, Step(s, t, c), t)
  {
  }

  lemma ChainsPlain(s: State, r: State, t: nat)
    requires Inv(s) && Chains(s) && t < |s.pcs| && PlainMove(s, r, t)
    ensures Chains(r)
  {
    TempOf(s, t);
    TempSame(s, r, t);
    hide Inv, Chains, TempOk, Plain;
    if r.pcs[t] != s.pcs[t] {
      PlainOk(r, t);
    }
    ChainsSame(s, r, t);
  }

  /** The notifier's own list depends on the pointers, the wait set and where the notifier is. */
  lemma TempSame(s: State, r: State, t: nat)
    requires t < |s.pcs| == |r.pcs| && r.links == s.links && r.waitset == s.waitset && TempOk(s, t)
    ensures r.pcs[t] == s.pcs[t] ==> TempOk(r, t)
  {
    hide Whole, Rest, IsSuffix, First;
  }

  lemma LocksChain(s: State, t: nat, c: Choice)
    requires Inv(s) && Chains(s) && t < |s.pcs| && (s.pcs[t].SomeLock? || s.pcs[t].AllLock?)
    ensures Shaped(s) && Chains(Step(s, t, c))
  {
    Basics(s);
    TempOf(s, t);
    hide Inv, Chains, Whole;
    if s.lock == Nobody {
      ChainsSame(s, Step(s, t, c), t);
    }
  }

  lemma SomeBeginChains(s: State, t: nat, c: Choice)
    requires Inv(s) && Chains(s) && t < |s.pcs| && s.pcs[t].SomeBegin?
    ensures Shaped(s) && Chains(Step(s, t, c))
  {
    Basics(s);
    TempOf(s, t);
    WsRest(s);
    hide Inv, Chains, Whole, Rest;
    ChainsSame(s, Step(s, t, c), t);
  }

  lemma ScanChains(s: State, t: nat, c: Choice)
    requires Inv(s) && Chains(s) && t < |s.pcs| && s.pcs[t].SomeScan?
    ensures Shaped(s) && Chains(Step(s, t, c))
  {
    Basics(s);
    TempOf(s, t);
    ScanStep(s, t, c);
    ScanIs(s, t);
    var (rest, temp) := (s.pcs[t].rest, s.pcs[t].temp);
    hide Inv, Chains, Whole, Step, Scan;
    assert rest != [] ==> [rest[0]] + rest[1..] == rest;
    ChainsSame(s, Step(s, t, c), t);
  }

  lemma PassChains(s: State, t: nat, c: Choice)
    requires Inv(s) && Chains(s) && t < |s.pcs|
    requires (s.pcs[t].SomePick? && c != Pred(true)) || s.pcs[t].SomeClear?
    ensures Shaped(s) && Chains(Step(s, t, c))
  {
    Basics(s);
    TempOf(s, t);
    hide Inv, Chains, Whole, First;
    if s.pcs[t].SomePick? {
      ChainsSame(s, Step(s, t, c), t);
    } else {
      var r := Step(s, t, c);
      assert r == Fault(s) || TempOk(r, t);
      hide TempOk;
      if r == Fault(s) {
        TempSame(s, r, t);
      }
      ChainsSame(s, r, t);
    }
  }

  // ---- in the wait set

  /** Node x is out of the wait set; nothing outside the wait set is written. */
  ghost predicate Unlinked(s: State, r: State, x: nat) {
    && r.links == RemoveLinks(s.links, x) && x in s.waitset && r.waitset == Without(s.waitset, Index(s.waitset, x))
    && r.size == s.size - 1 && |r.pcs| == |s.pcs|
  }

  lemma TakeOutIs(s: State, m: State, x: nat, p: Spot)
    requires Chains(s) && Shaped(m) && x in m.waitset && x < |m.spot|
    requires m.links == s.links && m.size == s.size && m.waitset == s.waitset && |m.pcs| == |s.pcs|
    ensures Unlinked(s, TakeOut(m, x, p), x) && TakeOut(m, x, p).pcs == m.pcs
  {
    ChainsWhole(s);
    hide Chains, Whole, RemoveLinks;
  }

  function WsNodes(s: State): seq<nat> {
    [WsHead(|s.pcs|)] + s.waitset + [WsTail(|s.pcs|)]
  }

  lemma UnlinkedWhole(s: State, r: State, x: nat)
    requires Chains(s) && Unlinked(s, r, x)
    ensures r.size == |r.waitset| && Whole(r.links, WsHead(|r.pcs|), r.waitset, WsTail(|r.pcs|))
    ensures SameElsewhere(s.links, r.links, WsNodes(s))
  {
    ChainsWhole(s);
    var k := Index(s.waitset, x);
    hide Chains, Whole, RemoveLinks, SameElsewhere;
    RemoveWhole(s.links, WsHead(|s.pcs|), s.waitset, WsTail(|s.pcs|), k);
    var some := [WsHead(|s.pcs|)] + s.waitset[..k] + s.waitset[k + 1..] + [WsTail(|s.pcs|)];
    assert forall y :: y in some ==> y in WsNodes(s);
    SameMore(s.links, r.links, some, WsNodes(s));
  }

  lemma WsMine(s: State, t: nat, x: nat)
    requires Inv(s) && t < |s.pcs| && x in WsNodes(s)
    ensures Shaped(s) && Mine(s, t, x)
  {
  }

  /** A step that writes pointers of the wait set alone. */
  lemma WsOwn(s: State, r: State, t: nat)
    requires Inv(s) && Chains(s) && t < |s.pcs| && SameElsewhere(s.links, r.links, WsNodes(s))
    ensures Shaped(s) && OwnPointers(s, r, t)
  {
    Basics(s);
    ChainsWhole(s);
    forall x | x in WsNodes(s)
      ensures Mine(s, t, x)
    {
      WsMine(s, t, x);
    }
    hide Inv, Chains, Mine, Whole, WsNodes, OwnPointers, SameElsewhere;
    OwnFrom(s, r, t, WsNodes(s));
  }

  lemma TempApart(s: State, r: State, t: nat, temp: seq<nat>)
    requires Inv(s) && t < |s.pcs| == |r.pcs| && SameElsewhere(s.links, r.links, WsNodes(s)) && TempWhole(s, t, temp)
    requires forall x :: x in temp ==> x in Pending(s.pcs[t])
    ensures TempWhole(r, t, temp)
  {
    forall x | x in [TempHead(|s.pcs|, t)] + temp + [TempTail(|s.pcs|, t)]
      ensures x !in WsNodes(s)
    {
      WsApart(s, t, x);
    }
    hide Inv, Pending, WsNodes;
    assert Sized(s.links) && Sized(r.links) && |r.links.next| == |s.links.next|;
    hide Whole;
    WholeFrame(s.links, r.links, TempHead(|s.pcs|, t), temp, TempTail(|s.pcs|, t));
  }

  lemma UnlinkChains(s: State, r: State, t: nat, x: nat)
    requires Inv(s) && Chains(s) && t < |s.pcs| && Unlinked(s, r, x) && s.lock == Thread(t)
    requires r.pcs == s.pcs[t := r.pcs[t]] && TempOk(r, t)
    ensures Chains(r)
  {
    UnlinkedWhole(s, r, x);
    WsOwn(s, r, t);
    hide Inv, Chains, Whole, Mine, OwnPointers, SameElsewhere, WsNodes, TempOk;
    ChainsFinish(s, r, t);
  }

  lemma CancelChains(s: State, t: nat, c: Choice)
    requires Inv(s) && Chains(s) && t < |s.pcs| && s.pcs[t].CancelCheck?
    ensures Shaped(s) && Chains(Step(s, t, c))
  {
    Basics(s);
    WaiterOf(s, t);
    if s.inWaitset[t] {
      FlagMeansIn(s, t);
      var m := Go(SetSpurious(SetIn(s, t, false), t, false), t, CancelUnlock);
      hide Inv, Chains;
      TakeOutIs(s, m, t, Out);
      UnlinkChains(s, Step(s, t, c), t, t);
    } else {
      hide Inv, Chains;
      ChainsPlain(s, Step(s, t, c), t);
    }
  }

  lemma PopChains(s: State, t: nat, c: Choice)
    requires Inv(s) && Chains(s) && t < |s.pcs| && s.pcs[t].OnePop?
    ensures Shaped(s) && Chains(Step(s, t, c))
  {
    Basics(s);
    WaiterOf(s, t);
    if s.size == 0 {
      hide Inv, Chains;
      ChainsPlain(s, Step(s, t, c), t);
    } else {
      PopIs(s, t, c);
      var x := s.waitset[0];
      WaiterWaits(s, x);
      hide Inv, Chains, Step, TakeOut;
      TakeOutIs(s, Go(s, t, OneClear(x)), x, OwedBy(t));
      var r := Step(s, t, c);
      PlainOk(r, t);
      UnlinkChains(s, r, t, x);
    }
  }

  /** Taking out the node before rest leaves rest at the end of the wait set. */
  lemma SuffixLeft(ws: seq<nat>, x: nat, rest: seq<nat>)
    requires Distinct(ws) && IsSuffix(ws, [x] + rest)
    ensures x in ws && IsSuffix(Without(ws, Index(ws, x)), rest)
  {
    var i := |ws| - |rest| - 1;
    var tail := ws[i..];
    assert tail == [x] + rest && tail[0] == ws[i];
    assert Index(ws, x) == i;
    assert tail[1..] == rest == ws[i + 1..];
  }

  lemma PickChains(s: State, t: nat, c: Choice)
    requires Inv(s) && Chains(s) && t < |s.pcs| && s.pcs[t].SomePick? && c == Pred(true)
    ensures Shaped(s) && Chains(Step(s, t, c))
  {
    Basics(s);
    TempOf(s, t);
    WaiterOf(s, t);
    var (x, nx) := (s.pcs[t].x, s.pcs[t].nx);
    var (rest, temp) := (s.pcs[t].rest, s.pcs[t].temp);
    SuffixLeft(s.waitset, x, rest);
    WaiterWaits(s, x);
    var (m, r) := (Go(s, t, SomePush(x, nx, rest, temp)), Step(s, t, c));
    assert r == TakeOut(m, x, OwedBy(t));
    hide Inv, Chains, Step, TakeOut;
    TakeOutIs(s, m, x, OwedBy(t));
    UnlinkedWhole(s, r, x);
    TempApart(s, r, t, temp);
    hide Unlinked, Whole, First, SameElsewhere, WsNodes;
    assert TempOk(r, t);
    UnlinkChains(s, r, t, x);
  }

  lemma PushMine(s: State, t: nat)
    requires Inv(s) && t < |s.pcs| && s.spot[t].Out?
    ensures Shaped(s) && forall x :: x in [WsHead(|s.pcs|), t, First(s.waitset, WsTail(|s.pcs|))] ==> Mine(s, t, x)
  {
    Basics(s);
    var (h, e) := (WsHead(|s.pcs|), WsTail(|s.pcs|));
    assert h in WsNodes(s) && First(s.waitset, e) in WsNodes(s) by {
      assert s.waitset != [] ==> s.waitset[0] in s.waitset;
    }
    WsMine(s, t, h);
    WsMine(s, t, First(s.waitset, e));
    assert Mine(s, t, t);
    hide Inv, Mine, First, WsNodes;
  }

  lemma PushChains(s: State, t: nat, c: Choice)
    requires Inv(s) && Chains(s) && t < |s.pcs| && s.pcs[t].PrepPush?
    ensures Shaped(s) && Chains(Step(s, t, c))
  {
    Basics(s);
    WaiterOf(s, t);
    ChainsWhole(s);
    var r := Step(s, t, c);
    WsApart(s, t, t);
    var (h, e) := (WsHead(|s.pcs|), WsTail(|s.pcs|));
    assert r.links == PushLinks(s.links, h, t) && r.waitset == [t] + s.waitset && r.size == s.size + 1;
    hide Chains, Whole, PushLinks, SameElsewhere, Step, WaiterInv, NotifierInv;
    PushWhole(s.links, h, s.waitset, e, t);
    PushMine(s, t);
    hide Inv, Mine, OwnPointers;
    OwnFrom(s, r, t, [h, t, First(s.waitset, e)]);
    ChainsFinish(s, r, t);
  }

  // ---- in the notifier's own list

  /** A step that writes pointers of t's own list alone leaves the wait set whole. */
  lemma WsStays(s: State, r: State, t: nat, nodes: seq<nat>)
    requires Inv(s) && Chains(s) && t < |s.pcs| == |r.pcs| && r.waitset == s.waitset && r.size == s.size
    requires SameElsewhere(s.links, r.links, nodes)
    requires forall x :: x in nodes ==> x in TempNodes(s, t)
    ensures Shaped(s) && OwnPointers(s, r, t)
    ensures r.size == |r.waitset| && Whole(r.links, WsHead(|r.pcs|), r.waitset, WsTail(|r.pcs|))
  {
    Basics(s);
    ChainsWhole(s);
    forall x | x in nodes
      ensures x !in WsNodes(s) && Mine(s, t, x)
    {
      assert x in TempNodes(s, t);
      WsApart(s, t, x);
      TempMine(s, t, x);
    }
    hide Inv, Chains, Mine, OwnPointers, TempNodes;
    OwnFrom(s, r, t, nodes);
    assert Sized(r.links) && |r.links.next| == |s.links.next|;
    hide Whole;
    WholeFrame(s.links, r.links, WsHead(|s.pcs|), s.waitset, WsTail(|s.pcs|));
  }

  lemma TempMine(s: State, t: nat, x: nat)
    requires Inv(s) && t < |s.pcs| && x in TempNodes(s, t)
    ensures Shaped(s) && Mine(s, t, x)
  {
    Basics(s);
    WaiterOf(s, t);
    hide Inv, Pending;
  }

  lemma InitChains(s: State, t: nat, c: Choice)
    requires Inv(s) && Chains(s) && t < |s.pcs| && (s.pcs[t].SomeInit? || s.pcs[t].AllInit?)
    ensures Shaped(s) && Chains(Step(s, t, c))
  {
    Basics(s);
    ChainsWhole(s);
    var (r, h, e) := (Step(s, t, c), TempHead(|s.pcs|, t), TempTail(|s.pcs|, t));
    assert r.links == ResetLinks(s.links, h, e);
    hide Inv, Chains, Whole, ResetLinks, SameElsewhere, OwnPointers;
    ResetWhole(s.links, h, e);
    WsStays(s, r, t, [h, e]);
    ChainsFinish(s, r, t);
  }

  lemma OwnNode(s: State, t: nat)
    requires Inv(s) && t < |s.pcs| && s.pcs[t].SomePush?
    ensures s.pcs[t].x < |s.pcs| && s.pcs[t].x !in s.pcs[t].temp
    ensures forall y :: y in [s.pcs[t].x] + s.pcs[t].temp ==> y in TempNodes(s, t) && y < |s.pcs|
  {
    WaiterOf(s, t);
    var (x, temp) := (s.pcs[t].x, s.pcs[t].temp);
    DistinctTail(x, temp);
    assert Pending(s.pcs[t]) == [x] + temp;
    assert x in Pending(s.pcs[t]);
    hide Inv, Pending, WaiterInv;
  }

  lemma TempPushIs(s: State, t: nat, c: Choice)
    requires Shaped(s) && t < |s.pcs| && s.pcs[t].SomePush?
    ensures var (x, nx) := (s.pcs[t].x, s.pcs[t].nx);
            var (rest, temp) := (s.pcs[t].rest, s.pcs[t].temp);
            Step(s, t, c)
            == Go(s.(links := PushLinks(s.links, TempHead(|s.pcs|, t), x)), t, SomeClear(x, nx, rest, [x] + temp))
  {
    hide PushLinks;
  }

  lemma TempPushChains(s: State, t: nat, c: Choice)
    requires Inv(s) && Chains(s) && t < |s.pcs| && s.pcs[t].SomePush?
    ensures Shaped(s) && Chains(Step(s, t, c))
  {
    Basics(s);
    ChainsWhole(s);
    TempOf(s, t);
    OwnNode(s, t);
    TempPushIs(s, t, c);
    var (x, temp) := (s.pcs[t].x, s.pcs[t].temp);
    var (r, h, e) := (Step(s, t, c), TempHead(|s.pcs|, t), TempTail(|s.pcs|, t));
    hide Step, Inv, Chains, Whole, PushLinks, SameElsewhere, OwnPointers, IsSuffix, First, Pending;
    assert TempWhole(s, t, temp);
    assert TempOk(r, t) by {
      PushWhole(s.links, h, temp, e, x);
    }
    PushWhole(s.links, h, temp, e, x);
    TempEnds(s, t, temp);
    hide TempNodes, TempOk;
    WsStays(s, r, t, [h, x, First(temp, e)]);
    ChainsFinish(s, r, t);
  }

  /** The nodes that a push onto the own list writes. */
  lemma TempEnds(s: State, t: nat, temp: seq<nat>)
    requires t < |s.pcs| && forall y :: y in temp ==> y in TempNodes(s, t)
    ensures TempHead(|s.pcs|, t) in TempNodes(s, t) && First(temp, TempTail(|s.pcs|, t)) in TempNodes(s, t)
  {
    FirstIn(temp, TempTail(|s.pcs|, t));
    hide Pending;
  }

  lemma FirstIn(rest: seq<nat>, e: nat)
    ensures First(rest, e) == e || First(rest, e) in rest
  {
  }

  lemma FlushMine(s: State, t: nat)
    requires Inv(s) && t < |s.pcs|
    ensures Shaped(s)
    ensures forall x ::
              x in [WsHead(|s.pcs|), WsTail(|s.pcs|), TempHead(|s.pcs|, t), TempTail(|s.pcs|, t)] + s.waitset ==>
                Mine(s, t, x)
  {
    Basics(s);
    assert forall x :: x in s.waitset ==> x < |s.pcs|;
    hide Inv, Pending;
  }

  lemma FlushChains(s: State, t: nat, c: Choice)
    requires Inv(s) && Chains(s) && t < |s.pcs| && s.pcs[t].AllFlush?
    ensures Shaped(s) && Chains(Step(s, t, c))
  {
    Basics(s);
    ChainsWhole(s);
    TempOf(s, t);
    WaiterOf(s, t);
    var (r, n) := (Step(s, t, c), |s.pcs|);
    var (h, e) := (TempHead(n, t), TempTail(n, t));
    WsApart(s, t, h);
    WsApart(s, t, e);
    FlushShape(s, t);
    assert r.links == FlushLinks(s.links, s.size, WsHead(n), WsTail(n), h, e) && r.size == 0;
    var nodes := [WsHead(n), WsTail(n), h, e] + s.waitset;
    FlushMine(s, t);
    assert r == FlushAll(s, t);
    hide Inv, Chains, Whole, FlushLinks, SameElsewhere, OwnPointers, FlushAll, Step, Mine;
    FlushWhole(s.links, WsHead(n), s.waitset, WsTail(n), h, e);
    OwnFrom(s, r, t, nodes);
    ChainsFinish(s, r, t);
  }

  lemma AllBeginChains(s: State, t: nat, c: Choice)
    requires Inv(s) && Chains(s) && t < |s.pcs| && s.pcs[t].AllBegin?
    ensures Shaped(s) && Chains(Step(s, t, c))
  {
    Basics(s);
    TempOf(s, t);
    TempRest(s, t, s.pcs[t].temp);
    hide Inv, Chains, Whole, Rest;
    ChainsSame(s, Step(s, t, c), t);
  }

  lemma AllTestChains(s: State, t: nat, c: Choice)
    requires Inv(s) && Chains(s) && t < |s.pcs| && s.pcs[t].AllTest?
    ensures Shaped(s) && Chains(Step(s, t, c))
  {
    Basics(s);
    TempOf(s, t);
    AllTestIs(s, t, c);
    hide Inv, Chains, Whole, Step, IsSuffix;
    ChainsSame(s, Step(s, t, c), t);
  }

  lemma AllClearIs(s: State, t: nat, c: Choice)
    requires Inv(s) && Chains(s) && t < |s.pcs| && s.pcs[t].AllClear?
    ensures var (x, rest, temp) := (s.pcs[t].x, s.pcs[t].rest, s.pcs[t].temp);
            && Shaped(s) && rest != [] && x == rest[0] && x < |s.inWaitset|
            && Step(s, t, c) == Go(SetIn(s, x, false), t, AllNext(x, rest[1..], temp))
  {
    Basics(s);
    TempOf(s, t);
    WaiterOf(s, t);
    assert s.pcs[t].x in ToClear(s.pcs[t]);
    hide Inv, Chains, TempWhole, HasLock, PhaseOk, FlagOk, WaiterInv;
  }

  lemma AllClearChains(s: State, t: nat, c: Choice)
    requires Inv(s) && Chains(s) && t < |s.pcs| && s.pcs[t].AllClear?
    ensures Shaped(s) && Chains(Step(s, t, c))
  {
    AllClearIs(s, t, c);
    TempOf(s, t);
    assert [s.pcs[t].x] + s.pcs[t].rest[1..] == s.pcs[t].rest;
    hide Inv, Chains, Whole, Step;
    ChainsSame(s, Step(s, t, c), t);
  }

  lemma AllNextChains(s: State, t: nat, c: Choice)
    requires Inv(s) && Chains(s) && t < |s.pcs| && s.pcs[t].AllNext?
    ensures Shaped(s) && Chains(Step(s, t, c))
  {
    Basics(s);
    TempOf(s, t);
    var (x, rest, temp) := (s.pcs[t].x, s.pcs[t].rest, s.pcs[t].temp);
    TempRest(s, t, temp);
    hide Inv, Chains, Whole, Rest;
    Steered(s.links, temp, [x] + rest, TempTail(|s.pcs|, t), x);
    assert ([x] + rest)[1..] == rest;
    ChainsSame(s, Step(s, t, c), t);
  }

  // ---- in the posting loop

  lemma UnlockChains(s: State, t: nat, c: Choice)
    requires Inv(s) && Chains(s) && t < |s.pcs| && s.pcs[t].Unlock?
    ensures Shaped(s) && Chains(Step(s, t, c))
  {
    Basics(s);
    TempOf(s, t);
    hide Inv, Chains, Whole;
    ChainsSame(s, Step(s, t, c), t);
  }

  lemma PostBeginChains(s: State, t: nat, c: Choice)
    requires Inv(s) && Chains(s) && t < |s.pcs| && s.pcs[t].PostBegin?
    ensures Shaped(s) && Chains(Step(s, t, c))
  {
    Basics(s);
    TempOf(s, t);
    TempRest(s, t, s.pcs[t].temp);
    hide Inv, Chains, Whole, Rest;
    ChainsSame(s, Step(s, t, c), t);
  }

  lemma PostTestChains(s: State, t: nat, c: Choice)
    requires Inv(s) && Chains(s) && t < |s.pcs| && s.pcs[t].PostTest?
    ensures Shaped(s) && Chains(Step(s, t, c))
  {
    Basics(s);
    TempOf(s, t);
    PostTestIs(s, t, c);
    hide Inv, Chains, Rest, Step;
    ChainsSame(s, Step(s, t, c), t);
  }

  lemma PostNodeChains(s: State, t: nat, c: Choice)
    requires Inv(s) && Chains(s) && t < |s.pcs| && s.pcs[t].PostNode?
    ensures Shaped(s) && Chains(Step(s, t, c))
  {
    Basics(s);
    TempOf(s, t);
    WaiterOf(s, t);
    var (x, rest) := (s.pcs[t].x, s.pcs[t].rest);
    assert x in Pending(s.pcs[t]);
    hide Inv, Chains, Rest;
    RestStep(s.links, rest, TempTail(|s.pcs|, t));
    ChainsSame(s, Step(s, t, c), t);
  }

  lemma IdleStep(s: State, t: nat, c: Choice)
    requires Shaped(s) && t < |s.pcs| && s.pcs[t].Idle?
    ensures Step(s, t, c) == Begin(s, t, c)
  {
  }

  predicate Waits(pc: Pc) {
    || pc.Idle? || pc.PrepCheck? || pc.PrepWait? || pc.PrepMark? || pc.PrepLock? || pc.PrepPush? || pc.PrepUnlock?
    || pc.Prepared? || pc.CommitLoad? || pc.CommitWait? || pc.CancelMark? || pc.CancelLoad? || pc.CancelLock?
    || pc.CancelCheck? || pc.CancelUnlock?
  }

  lemma WaiterKeeps(s: State, t: nat, c: Choice)
    requires Inv(s) && t < |s.pcs| && Waits(s.pcs[t])
    ensures Shaped(s) && Inv(Step(s, t, c))
  {
    Basics(s);
    var pc := s.pcs[t];
    hide Inv, Step;
    if pc.Idle? {
      IdleStep(s, t, c);
      KeepsBegin(s, t, c);
    } else if Looks(pc) {
      KeepsLook(s, t, c);
    } else if pc.PrepCheck? || pc.PrepMark? || pc.CancelMark? {
      KeepsFlags(s, t, c);
    } else if pc.PrepWait? || pc.CommitWait? {
      KeepsConsume(s, t, c);
    } else if pc.PrepLock? || pc.CancelLock? {
      KeepsLock(s, t, c);
    } else if pc.PrepUnlock? || pc.CancelUnlock? {
      KeepsUnlock(s, t, c);
    } else if pc.PrepPush? {
      KeepsPush(s, t, c);
    } else {
      KeepsCancel(s, t, c);
    }
  }

  lemma NotifierKeeps(s: State, t: nat, c: Choice)
    requires Inv(s) && Chains(s) && t < |s.pcs| && !Waits(s.pcs[t])
    ensures Shaped(s) && Inv(Step(s, t, c))
  {
    Basics(s);
    hide Inv, Step, Chains;
    match s.pcs[t]
    case OneSize => KeepsSize(s, t, c);
    case OneLock => KeepsLock(s, t, c);
    case OnePop => KeepsOnePop(s, t, c);
    case OneNone => KeepsUnlock(s, t, c);
    case OneClear(_) => KeepsOneClear(s, t, c);
    case OneUnlock(_) => KeepsUnlock(s, t, c);
    case OnePost(_) => KeepsOnePost(s, t, c);
    case SomeSize => KeepsSize(s, t, c);
    case SomeInit => KeepsInit(s, t, c);
    case SomeLock => KeepsLock(s, t, c);
    case SomeBegin => KeepsSomeBegin(s, t, c);
    case SomeScan(_, _, _) => KeepsScan(s, t, c);
    case SomePick(_, _, _, _) => KeepsPick(s, t, c);
    case SomePush(_, _, _, _) => KeepsSomePush(s, t, c);
    case SomeClear(_, _, _, _) => KeepsSomeClear(s, t, c);
    case AllSize => KeepsSize(s, t, c);
    case AllInit => KeepsInit(s, t, c);
    case AllLock => KeepsLock(s, t, c);
    case AllFlush => KeepsFlush(s, t, c);
    case AllBegin(_) => KeepsAllBegin(s, t, c);
    case AllTest(_, _, _) => KeepsAllTest(s, t, c);
    case AllClear(_, _, _) => KeepsAllClear(s, t, c);
    case AllNext(_, _, _) => KeepsAllNext(s, t, c);
    case Unlock(_) => KeepsUnlock(s, t, c);
    case PostBegin(_) => KeepsPostBegin(s, t, c);
    case PostTest(_, _) => KeepsPostTest(s, t, c);
    case PostNode(_, _, _) => KeepsPostNode(s, t, c);
  }

  lemma WaiterChains(s: State, t: nat, c: Choice)
    requires Inv(s) && Chains(s) && t < |s.pcs| && Waits(s.pcs[t])
    ensures Shaped(s) && Chains(Step(s, t, c))
  {
    Basics(s);
    var (pc, r) := (s.pcs[t], Step(s, t, c));
    hide Inv, Step, Chains, PlainMove;
    if pc.Idle? {
      PlainBegin(s, t, c);
      ChainsPlain(s, r, t);
    } else if pc.PrepPush? {
      PushChains(s, t, c);
    } else if pc.CancelCheck? {
      CancelChains(s, t, c);
    } else if pc.PrepCheck? || pc.PrepWait? || pc.PrepMark? || pc.PrepLock? || pc.PrepUnlock? || pc.Prepared? {
      PlainPrepare(s, t, c);
      ChainsPlain(s, r, t);
    } else {
      PlainCancel(s, t, c);
      ChainsPlain(s, r, t);
    }
  }

  lemma NotifierChains(s: State, t: nat, c: Choice)
    requires Inv(s) && Chains(s) && t < |s.pcs| && !Waits(s.pcs[t])
    ensures Shaped(s) && Chains(Step(s, t, c))
  {
    Basics(s);
    var r := Step(s, t, c);
    hide Inv, Step, Chains, PlainMove;
    match s.pcs[t]
    case OnePop => PopChains(s, t, c);
    case SomeInit => InitChains(s, t, c);
    case SomeLock => LocksChain(s, t, c);
    case SomeBegin => SomeBeginChains(s, t, c);
    case SomeScan(_, _, _) => ScanChains(s, t, c);
    case SomePick(_, _, _, _) => if c == Pred(true) { PickChains(s, t, c); } else { PassChains(s, t, c); }
    case SomePush(_, _, _, _) => TempPushChains(s, t, c);
    case SomeClear(_, _, _, _) => PassChains(s, t, c);
    case AllInit => InitChains(s, t, c);
    case AllLock => LocksChain(s, t, c);
    case AllFlush => FlushChains(s, t, c);
    case AllBegin(_) => AllBeginChains(s, t, c);
    case AllTest(_, _, _) => AllTestChains(s, t, c);
    case AllClear(_, _, _) => AllClearChains(s, t, c);
    case AllNext(_, _, _) => AllNextChains(s, t, c);
    case Unlock(_) => UnlockChains(s, t, c);
    case PostBegin(_) => PostBeginChains(s, t, c);
    case PostTest(_, _) => PostTestChains(s, t, c);
    case PostNode(_, _, _) => PostNodeChains(s, t, c);
    case _ =>
      PlainNotify(s, t, c);
      ChainsPlain(s, r, t);
  }

  /** Every step of every thread keeps the flags, the permits, the lists and their pointers in order. */
  lemma StepKeeps(s: State, t: nat, c: Choice)
    requires Inv(s) && Chains(s) && t < |s.pcs|
    ensures Shaped(s) && Inv(Step(s, t, c)) && Chains(Step(s, t, c))
  {
    hide Inv, Step, Chains, Waits;
    if Waits(s.pcs[t]) {
      WaiterKeeps(s, t, c);
      WaiterChains(s, t, c);
    } else {
      NotifierKeeps(s, t, c);
      NotifierChains(s, t, c);
    }
  }

  // ---- runs

  datatype Move = Move(t: nat, c: Choice)

  /** n threads after any interleaving of steps. */
  ghost function After(n: nat, moves: seq<Move>): (s: State)
    ensures Inv(s) && Chains(s) && Shaped(s) && |s.pcs| == n
  {
    if moves == [] then StartHolds(n); Start(n)
    else
      var s, m := After(n, moves[..|moves| - 1]), moves[|moves| - 1];
      if m.t < n then StepKeeps(s, m.t, m.c); Step(s, m.t, m.c) else s
  }

  lemma StartHolds(n: nat)
    ensures Inv(Start(n)) && Chains(Start(n)) && Shaped(Start(n))
  {
    ResetWhole(Nulls(n), WsHead(n), WsTail(n));
    hide Whole, ResetLinks, Linked;
  }

  /** The post that a notifier still owes to waiter w. */
  predicate Owes(pc: Pc, w: nat) {
    w in Pending(pc)
  }

  /** Taken out of the wait set by a notifier, and not woken since. */
  predicate Notified(s: State, w: nat)
    requires w < |s.spot|
  {
    s.spot[w].OwedBy? || s.spot[w].Posted?
  }

  lemma OwesIsSpot(s: State, u: nat, w: nat)
    requires Inv(s) && u < |s.pcs| && w < |s.pcs|
    ensures Shaped(s) && Distinct(Pending(s.pcs[u])) && (Owes(s.pcs[u], w) <==> s.spot[w] == OwedBy(u))
  {
    Basics(s);
    WaiterOf(s, u);
    WaiterOf(s, w);
    hide Inv, Pending, ToClear, ToVisit, PhaseOk;
  }

  /** Main theorem: in every reachable state, a waiter has exactly one permit, posted or owed by exactly one
      notifier, if a notifier has taken it out and it has not consumed the permit, and none otherwise. */
  lemma OnePermit(n: nat, moves: seq<Move>, w: nat)
    requires w < n
    ensures var s := After(n, moves);
            && (s.sema[w] == if Notified(s, w) && !(exists u :: 0 <= u < n && Owes(s.pcs[u], w)) then 1 else 0)
            && ((exists u :: 0 <= u < n && Owes(s.pcs[u], w)) ==> Notified(s, w) && s.sema[w] == 0)
            && (forall u, v :: 0 <= u < n && 0 <= v < n && Owes(s.pcs[u], w) && Owes(s.pcs[v], w) ==> u == v)
            && (forall u :: 0 <= u < n ==> Distinct(Pending(s.pcs[u])))
  {
    var s := After(n, moves);
    hide After;
    WaiterOf(s, w);
    forall u | 0 <= u < n
      ensures Distinct(Pending(s.pcs[u])) && (Owes(s.pcs[u], w) <==> s.spot[w] == OwedBy(u))
    {
      OwesIsSpot(s, u, w);
    }
    hide Inv, PhaseOk, Owes, Chains;
  }

  /** Main theorem: a waiter that blocks is in the wait set, or has its permit, or is owed it: it is never forgotten. A
      thread that pumps a spurious wakeup is owed its permit or has it. */
  lemma NobodyIsForgotten(n: nat, moves: seq<Move>, w: nat)
    requires w < n
    ensures var s := After(n, moves);
            && (s.pcs[w].CommitWait? && s.sema[w] == 0 ==>
                  w in s.waitset || exists u :: 0 <= u < n && Owes(s.pcs[u], w))
            && (s.pcs[w].PrepWait? && s.sema[w] == 0 ==> exists u :: 0 <= u < n && Owes(s.pcs[u], w))
  {
    var s := After(n, moves);
    hide After;
    WaiterOf(s, w);
    assert s.spot[w].OwedBy? ==> Owes(s.pcs[s.spot[w].u], w);
    hide Inv, Chains, Owes;
  }

  /** From `dlist temp` to the start of the posting loop a notifier has a list of its own, with these nodes. */
  function OwnList(pc: Pc): seq<nat> {
    if pc.SomeScan? || pc.SomePick? || pc.SomePush? || pc.SomeClear? || pc.AllBegin? || pc.AllTest? || pc.AllClear?
       || pc.AllNext?
       || pc.Unlock? || pc.PostBegin?
    then pc.temp else []
  }

  predicate HasList(pc: Pc) {
    !Plain(pc) && !pc.PostTest? && !pc.PostNode?
  }

  lemma ListOf(s: State, u: nat)
    requires u < |s.pcs| && TempOk(s, u)
    ensures HasList(s.pcs[u]) ==> TempWhole(s, u, OwnList(s.pcs[u]))
    ensures s.pcs[u].PostTest? || s.pcs[u].PostNode? ==> Rest(s.links, Pending(s.pcs[u]), TempTail(|s.pcs|, u))
  {
    hide Rest, TempWhole, IsSuffix, First;
  }

  /** Main theorem: in every reachable state the pointers are in order, whatever has been pushed again in the
      meantime. The wait set is linked in both directions from its head to its tail and its size is right; so is
      each notifier's own list; in the posting loop, what a notifier still has to post is linked to its own tail.
      No node is pushed while it is in a list, none is removed that is not in the wait set, and no pointer leads
      nowhere. */
  lemma ListsAreSound(n: nat, moves: seq<Move>, u: nat)
    requires u < n
    ensures var (s, pc) := (After(n, moves), After(n, moves).pcs[u]);
            && !s.fault && s.size == |s.waitset| && Whole(s.links, WsHead(n), s.waitset, WsTail(n))
            && (HasList(pc) ==> Whole(s.links, TempHead(n, u), OwnList(pc), TempTail(n, u)))
            && (pc.PostTest? || pc.PostNode? ==> Rest(s.links, Pending(pc), TempTail(n, u)))
            && (forall x :: x in Pending(pc) ==> x !in s.waitset)
            && (forall x :: x in ToVisit(pc) ==> x in s.waitset)
  {
    var s := After(n, moves);
    hide After;
    Basics(s);
    ChainsWhole(s);
    TempOf(s, u);
    WaiterOf(s, u);
    forall x | x in Pending(s.pcs[u])
      ensures x !in s.waitset
    {
      WaiterOf(s, x);
    }
    hide Inv, TempOk, Chains, Whole, Rest, Pending, ToVisit, HasList, OwnList;
    ListOf(s, u);
  }

  /** The posting loop at thread u goes by the list: it stops if and only if nobody is left, and the node it holds
      is the first that is left, with the pointer of the one after it. */
  ghost predicate LoopGoesBy(s: State, u: nat, c: Choice)
    requires Shaped(s) && u < |s.pcs|
  {
    var (pc, next) := (s.pcs[u], Step(s, u, c).pcs[u]);
    && (pc.PostTest? ==> (next.Idle? <==> Pending(pc) == []))
    && (pc.PostTest? && Pending(pc) != [] ==>
          next.PostNode? && next.x == Pending(pc)[0] && Pending(next) == Pending(pc))
    && (pc.PostNode? ==> Pending(pc) == [pc.x] + Pending(next) && pc.nx == First(Pending(next), TempTail(|s.pcs|, u)))
  }

  lemma PostTestGoes(s: State, u: nat, c: Choice)
    requires Chains(s) && Shaped(s) && u < |s.pcs| && s.pcs[u].PostTest?
    ensures LoopGoesBy(s, u, c)
  {
    PostTestIs(s, u, c);
    hide Chains, Step;
  }

  lemma PostNodeGoes(s: State, u: nat, c: Choice)
    requires Inv(s) && Chains(s) && Shaped(s) && u < |s.pcs| && s.pcs[u].PostNode?
    ensures LoopGoesBy(s, u, c)
  {
    PostNodeIs(s, u, c);
    hide Inv, Chains, Step;
  }

  lemma PostNodeIs(s: State, u: nat, c: Choice)
    requires Inv(s) && Chains(s) && Shaped(s) && u < |s.pcs| && s.pcs[u].PostNode?
    ensures var (x, nx, rest) := (s.pcs[u].x, s.pcs[u].nx, s.pcs[u].rest);
            && rest != [] && rest == [x] + rest[1..] && nx == First(rest[1..], TempTail(|s.pcs|, u))
            && Step(s, u, c).pcs[u] == PostTest(nx, rest[1..])
  {
    TempOf(s, u);
    WaiterOf(s, u);
    assert s.pcs[u].rest[0] in Pending(s.pcs[u]);
    hide Inv, Chains, Rest, WaiterInv, ToClear, ToVisit, Distinct;
  }

  /** Main theorem: the posting loop, which follows the pointers alone, posts exactly who is left, in list order. */
  lemma LoopFollowsList(n: nat, moves: seq<Move>, u: nat, c: Choice)
    requires u < n
    ensures LoopGoesBy(After(n, moves), u, c)
  {
    var s := After(n, moves);
    hide After, Inv, Chains, Step;
    if s.pcs[u].PostTest? {
      PostTestGoes(s, u, c);
    } else if s.pcs[u].PostNode? {
      PostNodeGoes(s, u, c);
    }
  }

  /** Why the loops read the next pointer before the post: the node of a waiter that has pushed itself again points
      into the wait set, never to a node that a notifier still has to post, nor to the end of its list. */
  lemma PostedNodeLeadsElsewhere(n: nat, moves: seq<Move>, x: nat, u: nat)
    requires u < n && x in After(n, moves).waitset
    ensures var s := After(n, moves);
            && (Next(s, x) == WsTail(n) || exists y: nat :: y in s.waitset && Next(s, x) == y)
            && Next(s, x) != TempTail(n, u) && forall y: nat :: y in Pending(s.pcs[u]) ==> Next(s, x) != y
  {
    var s := After(n, moves);
    hide After;
    ListsAreSound(n, moves, u);
    Basics(s);
    var path := [WsHead(n)] + s.waitset + [WsTail(n)];
    var i := Index(s.waitset, x);
    assert path[i + 1] == x && path[i + 2] == if i + 1 < |s.waitset| then s.waitset[i + 1] else WsTail(n);
    assert i + 1 < i + 2 && s.links.next[path[i + 1]] == path[i + 2] && path[i + 1] < |s.links.next|;
    assert Next(s, x) == path[i + 2];
    assert i + 1 < |s.waitset| ==> s.waitset[i + 1] in s.waitset;
    WaiterOf(s, u);
    assert forall y :: y in Pending(s.pcs[u]) ==> y < n;
    hide Inv, Chains, Pending, ToVisit, Whole, Rest;
  }

  // ---- where a waiter's node goes

  /** How a step of t, which is at pc, may move the node of w. */
  predicate SpotMove(p: Spot, p': Spot, t: nat, w: nat, pc: Pc) {
    || p' == p
    || (p.Out? && p'.InSet? && t == w && pc.PrepPush?)
    || (p.InSet? && p'.Out? && t == w && pc.CancelCheck?)
    || (p.InSet? && p' == OwedBy(t) && (pc.OnePop? || pc.SomePick? || pc.AllFlush?))
    || (p == OwedBy(t) && p'.Posted? && (pc.OnePost? || pc.PostNode?))
    || (p.Posted? && p'.Out? && t == w && (pc.PrepWait? || pc.CommitWait?))
  }

  lemma WaiterStill(s: State, t: nat, c: Choice)
    requires Shaped(s) && t < |s.pcs|
    requires var pc := s.pcs[t];
             || pc.Idle? || pc.PrepCheck? || pc.PrepMark? || pc.PrepLock? || pc.PrepUnlock? || pc.Prepared?
             || pc.CommitLoad?
             || pc.CancelMark? || pc.CancelLoad? || pc.CancelLock? || pc.CancelUnlock?
    ensures Step(s, t, c).spot == s.spot
  {
  }

  lemma NotifierStill(s: State, t: nat, c: Choice)
    requires Shaped(s) && t < |s.pcs|
    requires var pc := s.pcs[t];
             || pc.OneSize? || pc.OneLock? || pc.OneNone? || pc.OneClear? || pc.OneUnlock? || pc.SomeSize?
             || pc.SomeInit?
             || pc.SomeLock? || pc.SomeBegin? || pc.SomeScan? || pc.SomePush? || pc.SomeClear?
    ensures Step(s, t, c).spot == s.spot
  {
  }

  lemma AllStill(s: State, t: nat, c: Choice)
    requires Shaped(s) && t < |s.pcs|
    requires var pc := s.pcs[t];
             || pc.AllSize? || pc.AllInit? || pc.AllLock? || pc.AllBegin? || pc.AllTest? || pc.AllClear? || pc.AllNext?
             || pc.Unlock? || pc.PostBegin? || pc.PostTest?
    ensures Step(s, t, c).spot == s.spot
  {
  }

  lemma SpotConsume(s: State, t: nat, c: Choice, w: nat)
    requires Inv(s) && t < |s.pcs| && w < |s.pcs| && (s.pcs[t].PrepWait? || s.pcs[t].CommitWait?)
    ensures Shaped(s) && Shaped(Step(s, t, c)) && SpotMove(s.spot[w], Step(s, t, c).spot[w], t, w, s.pcs[t])
  {
    WaiterOf(s, t);
    hide Inv, NotifierInv, FlagOk, HasLock, PhaseOk;
  }

  lemma SpotPush(s: State, t: nat, c: Choice, w: nat)
    requires Inv(s) && t < |s.pcs| && w < |s.pcs| && s.pcs[t].PrepPush?
    ensures Shaped(s) && Shaped(Step(s, t, c)) && SpotMove(s.spot[w], Step(s, t, c).spot[w], t, w, s.pcs[t])
  {
    Basics(s);
    hide Inv;
  }

  lemma SpotCancel(s: State, t: nat, c: Choice, w: nat)
    requires Inv(s) && t < |s.pcs| && w < |s.pcs| && s.pcs[t].CancelCheck?
    ensures Shaped(s) && Shaped(Step(s, t, c)) && SpotMove(s.spot[w], Step(s, t, c).spot[w], t, w, s.pcs[t])
  {
    Basics(s);
    if s.inWaitset[t] {
      FlagMeansIn(s, t);
    }
    hide Inv;
  }

  lemma SpotPop(s: State, t: nat, c: Choice, w: nat)
    requires Inv(s) && Chains(s) && t < |s.pcs| && w < |s.pcs| && s.pcs[t].OnePop?
    ensures Shaped(s) && Shaped(Step(s, t, c)) && SpotMove(s.spot[w], Step(s, t, c).spot[w], t, w, s.pcs[t])
  {
    Basics(s);
    if s.size != 0 {
      PopIs(s, t, c);
      WaiterWaits(s, s.waitset[0]);
      hide Step;
    }
    hide Inv, Chains;
  }

  lemma SpotPick(s: State, t: nat, c: Choice, w: nat)
    requires Inv(s) && t < |s.pcs| && w < |s.pcs| && s.pcs[t].SomePick?
    ensures Shaped(s) && Shaped(Step(s, t, c)) && SpotMove(s.spot[w], Step(s, t, c).spot[w], t, w, s.pcs[t])
  {
    Basics(s);
    WaiterOf(s, t);
    assert s.pcs[t].x in ToVisit(s.pcs[t]);
    WaiterWaits(s, s.pcs[t].x);
    hide Inv, NotifierInv, WaiterInv;
  }

  lemma SpotFlush(s: State, t: nat, c: Choice, w: nat)
    requires Inv(s) && t < |s.pcs| && w < |s.pcs| && s.pcs[t].AllFlush?
    ensures Shaped(s) && Shaped(Step(s, t, c)) && SpotMove(s.spot[w], Step(s, t, c).spot[w], t, w, s.pcs[t])
  {
    Basics(s);
    FlushShape(s, t);
    if w in s.waitset {
      WaiterWaits(s, w);
    }
    hide Inv, FlushAll;
  }

  lemma SpotPost(s: State, t: nat, c: Choice, w: nat)
    requires Inv(s) && Chains(s) && t < |s.pcs| && w < |s.pcs| && (s.pcs[t].OnePost? || s.pcs[t].PostNode?)
    ensures Shaped(s) && Shaped(Step(s, t, c)) && SpotMove(s.spot[w], Step(s, t, c).spot[w], t, w, s.pcs[t])
  {
    Basics(s);
    WaiterOf(s, t);
    TempOf(s, t);
    assert s.pcs[t].x in Pending(s.pcs[t]);
    hide Inv, Chains, WaiterInv, ToVisit, ToClear, Rest;
  }

  lemma SpotMoves(s: State, t: nat, c: Choice, w: nat)
    requires Inv(s) && Chains(s) && t < |s.pcs| && w < |s.pcs|
    ensures Shaped(s) && Shaped(Step(s, t, c)) && SpotMove(s.spot[w], Step(s, t, c).spot[w], t, w, s.pcs[t])
  {
    StepKeeps(s, t, c);
    Basics(s);
    Basics(Step(s, t, c));
    hide Inv, Chains, Step;
    match s.pcs[t]
    case PrepWait => SpotConsume(s, t, c, w);
    case CommitWait => SpotConsume(s, t, c, w);
    case PrepPush => SpotPush(s, t, c, w);
    case CancelCheck => SpotCancel(s, t, c, w);
    case OnePop => SpotPop(s, t, c, w);
    case SomePick(_, _, _, _) => SpotPick(s, t, c, w);
    case AllFlush => SpotFlush(s, t, c, w);
    case OnePost(_) => SpotPost(s, t, c, w);
    case PostNode(_, _, _) => SpotPost(s, t, c, w);
    case _ => SpotStill(s, t, c);
  }

  lemma SpotStill(s: State, t: nat, c: Choice)
    requires Shaped(s) && t < |s.pcs|
    requires var pc := s.pcs[t];
             && !pc.PrepWait? && !pc.CommitWait? && !pc.PrepPush? && !pc.CancelCheck? && !pc.OnePop? && !pc.SomePick?
             && !pc.AllFlush? && !pc.OnePost? && !pc.PostNode?
    ensures Step(s, t, c).spot == s.spot
  {
    hide Step;
    var pc := s.pcs[t];
    if Waits(pc) {
      WaiterStill(s, t, c);
    } else if pc.AllSize? || pc.AllInit? || pc.AllLock? || pc.AllBegin? || pc.AllTest? || pc.AllClear? || pc.AllNext?
              || pc.Unlock? || pc.PostBegin? || pc.PostTest? {
      AllStill(s, t, c);
    } else {
      NotifierStill(s, t, c);
    }
  }

  // ---- conservation over runs

  predicate Leaves(s: State, r: State, w: nat) {
    w in s.waitset && w !in r.waitset
  }

  /** A notifier's step takes w out of the wait set. */
  predicate Takes(s: State, r: State, t: nat, w: nat) {
    Leaves(s, r, w) && t < |s.pcs| && !s.pcs[t].CancelCheck?
  }

  /** w's semaphore is posted. */
  predicate Wakes(s: State, r: State, w: nat) {
    w < |s.sema| && w < |r.sema| && r.sema[w] > s.sema[w]
  }

  /** How often notifier u has taken w out of the wait set. */
  ghost function TakenBy(n: nat, moves: seq<Move>, u: nat, w: nat): nat {
    if moves == [] then 0
    else
      var (was, m) := (moves[..|moves| - 1], moves[|moves| - 1]);
      TakenBy(n, was, u, w) + if m.t == u && Takes(After(n, was), After(n, moves), u, w) then 1 else 0
  }

  /** How often notifier u has posted w's semaphore. */
  ghost function PostedBy(n: nat, moves: seq<Move>, u: nat, w: nat): nat {
    if moves == [] then 0
    else
      var (was, m) := (moves[..|moves| - 1], moves[|moves| - 1]);
      PostedBy(n, was, u, w) + if m.t == u && Wakes(After(n, was), After(n, moves), w) then 1 else 0
  }

  lemma SpotOf(s: State, w: nat)
    requires Inv(s) && w < |s.pcs|
    ensures Shaped(s) && (w in s.waitset <==> s.spot[w].InSet?) && s.sema[w] == if s.spot[w].Posted? then 1 else 0
  {
    Basics(s);
    WaiterOf(s, w);
  }

  /** What one step of t does to notifier u's account with w. */
  lemma AccountStep(s: State, t: nat, c: Choice, u: nat, w: nat)
    requires Inv(s) && Chains(s) && t < |s.pcs| && u < |s.pcs| && w < |s.pcs|
    ensures Shaped(s)
    ensures var r := Step(s, t, c);
            && |r.pcs| == |s.pcs|
            && (t == u && Takes(s, r, u, w) ==> !Owes(s.pcs[u], w) && Owes(r.pcs[u], w) && !Wakes(s, r, w))
            && (t == u && Wakes(s, r, w) ==> Owes(s.pcs[u], w) && !Owes(r.pcs[u], w))
            && (!(t == u && (Takes(s, r, u, w) || Wakes(s, r, w))) ==> (Owes(s.pcs[u], w) <==> Owes(r.pcs[u], w)))
  {
    SpotMoves(s, t, c, w);
    StepKeeps(s, t, c);
    var r := Step(s, t, c);
    SpotOf(s, w);
    SpotOf(r, w);
    OwesIsSpot(s, u, w);
    OwesIsSpot(r, u, w);
    hide Inv, Chains, Step, Owes;
  }

  lemma AfterStep(n: nat, moves: seq<Move>)
    requires moves != []
    ensures var (s, m) := (After(n, moves[..|moves| - 1]), moves[|moves| - 1]);
            After(n, moves) == if m.t < n then Step(s, m.t, m.c) else s
  {
  }

  /** Main theorem: in every run, as often as a notifier has taken a thread out of the wait set it has posted it,
      but for the one post that it still owes. Its loops follow pointers while posted threads push their nodes
      again. */
  lemma {:induction false} PostsWhatItTakes(n: nat, moves: seq<Move>, u: nat, w: nat)
    requires u < n && w < n
    ensures TakenBy(n, moves, u, w) == PostedBy(n, moves, u, w) + if Owes(After(n, moves).pcs[u], w) then 1 else 0
  {
    if moves != [] {
      var (was, m) := (moves[..|moves| - 1], moves[|moves| - 1]);
      var s := After(n, was);
      PostsWhatItTakes(n, was, u, w);
      AfterStep(n, moves);
      if m.t < n {
        hide After, Owes, Takes, Wakes;
        AccountStep(s, m.t, m.c, u, w);
      }
    } else {
      assert !Owes(Start(n).pcs[u], w);
    }
  }

  // ---- notify_all

  /** In a notify_all that has not yet flushed. */
  predicate BeforeFlush(pc: Pc) {
    pc.AllInit? || pc.AllLock? || pc.AllFlush?
  }

  lemma BeforeFlushGoesOn(s: State, u: nat, c: Choice)
    requires Shaped(s) && u < |s.pcs| && BeforeFlush(s.pcs[u])
    ensures BeforeFlush(Step(s, u, c).pcs[u]) || Step(s, u, c).waitset == []
  {
  }

  lemma OthersStay(s: State, t: nat, c: Choice, u: nat)
    requires Inv(s) && Chains(s) && t < |s.pcs| && u < |s.pcs| && u != t
    ensures Shaped(s) && Step(s, t, c).pcs[u] == s.pcs[u]
  {
    Basics(s);
    StepMovesOne(s, t, c);
  }

  lemma StepMovesOne(s: State, t: nat, c: Choice)
    requires Shaped(s) && t < |s.pcs|
    ensures Step(s, t, c).pcs == s.pcs[t := Step(s, t, c).pcs[t]]
  {
    hide Step;
    if Waits(s.pcs[t]) {
      WaiterMovesOne(s, t, c);
    } else if s.pcs[t].OneSize? || s.pcs[t].OneLock? || s.pcs[t].OnePop? || s.pcs[t].OneNone? || s.pcs[t].OneClear?
              || s.pcs[t].OneUnlock? || s.pcs[t].OnePost? {
      OneMovesOne(s, t, c);
    } else if s.pcs[t].SomeSize? || s.pcs[t].SomeInit? || s.pcs[t].SomeLock? || s.pcs[t].SomeBegin?
      || s.pcs[t].SomeScan?
              || s.pcs[t].SomePick? || s.pcs[t].SomePush? || s.pcs[t].SomeClear? {
      SomeMovesOne(s, t, c);
    } else {
      AllMovesOne(s, t, c);
    }
  }

  lemma WaiterMovesOne(s: State, t: nat, c: Choice)
    requires Shaped(s) && t < |s.pcs| && Waits(s.pcs[t])
    ensures Step(s, t, c).pcs == s.pcs[t := Step(s, t, c).pcs[t]]
  {
  }

  lemma OneMovesOne(s: State, t: nat, c: Choice)
    requires Shaped(s) && t < |s.pcs|
    requires var pc := s.pcs[t];
             pc.OneSize? || pc.OneLock? || pc.OnePop? || pc.OneNone? || pc.OneClear? || pc.OneUnlock? || pc.OnePost?
    ensures Step(s, t, c).pcs == s.pcs[t := Step(s, t, c).pcs[t]]
  {
  }

  lemma SomeMovesOne(s: State, t: nat, c: Choice)
    requires Shaped(s) && t < |s.pcs|
    requires var pc := s.pcs[t];
             || pc.SomeSize? || pc.SomeInit? || pc.SomeLock? || pc.SomeBegin? || pc.SomeScan? || pc.SomePick?
             || pc.SomePush?
             || pc.SomeClear?
    ensures Step(s, t, c).pcs == s.pcs[t := Step(s, t, c).pcs[t]]
  {
    hide RemoveLinks, PushLinks, ResetLinks;
  }

  lemma AllMovesOne(s: State, t: nat, c: Choice)
    requires Shaped(s) && t < |s.pcs|
    requires var pc := s.pcs[t];
             || pc.AllSize? || pc.AllInit? || pc.AllLock? || pc.AllFlush? || pc.AllBegin? || pc.AllTest? || pc.AllClear?
             || pc.AllNext? || pc.Unlock? || pc.PostBegin? || pc.PostTest? || pc.PostNode?
    ensures Step(s, t, c).pcs == s.pcs[t := Step(s, t, c).pcs[t]]
  {
    hide FlushLinks, ResetLinks;
  }

  /** Some move of more, after moves, takes w out of the wait set: a notifier does, which then owes w its post, or
      w's own cancel. */
  ghost predicate LeftDuring(n: nat, moves: seq<Move>, more: seq<Move>, w: nat) {
    exists k: nat :: k < |more| && LeavesAt(n, moves, more, k, w)
  }

  ghost predicate LeavesAt(n: nat, moves: seq<Move>, more: seq<Move>, k: nat, w: nat)
    requires k < |more|
  {
    var (s, r, m) := (After(n, moves + more[..k]), After(n, moves + more[..k + 1]), more[k]);
    && m.t < n && Leaves(s, r, w)
    && ((m.t == w && s.pcs[w].CancelCheck?) || Owes(r.pcs[m.t], w))
  }

  lemma LeavingStep(s: State, t: nat, c: Choice, w: nat)
    requires Inv(s) && Chains(s) && t < |s.pcs| && w < |s.pcs|
    ensures Shaped(s)
    ensures var r := Step(s, t, c);
            && |r.pcs| == |s.pcs|
            && (Leaves(s, r, w) ==> (t == w && s.pcs[w].CancelCheck?) || Owes(r.pcs[t], w))
  {
    SpotMoves(s, t, c, w);
    StepKeeps(s, t, c);
    var r := Step(s, t, c);
    SpotOf(s, w);
    SpotOf(r, w);
    OwesIsSpot(r, t, w);
    hide Inv, Chains, Step, Owes;
  }

  lemma {:induction false} StaysUntil(n: nat, moves: seq<Move>, more: seq<Move>, u: nat, w: nat)
    requires u < n && w < n && BeforeFlush(After(n, moves).pcs[u]) && w in After(n, moves).waitset
    requires !LeftDuring(n, moves, more, w)
    ensures BeforeFlush(After(n, moves + more).pcs[u]) && w in After(n, moves + more).waitset
  {
    hide After, BeforeFlush, LeavesAt, Leaves;
    if more == [] {
      assert moves + more == moves;
    } else {
      var k := |more| - 1;
      var (less, m) := (more[..k], more[k]);
      forall j: nat | j < |less|
        ensures !LeavesAt(n, moves, less, j, w)
      {
        assert less[..j] == more[..j] && less[..j + 1] == more[..j + 1];
        SameLeaving(n, moves, more, less, j, w);
      }
      StaysUntil(n, moves, less, u, w);
      var all := moves + more;
      assert all[..|all| - 1] == moves + less && all[|all| - 1] == m && more[..k + 1] == more;
      AfterStep(n, all);
      assert !LeavesAt(n, moves, more, k, w);
      if m.t < n {
        StaysOnce(After(n, moves + less), m.t, m.c, u, w);
        NotLeaving(n, moves, more, w);
      }
    }
  }

  lemma SameLeaving(n: nat, moves: seq<Move>, more: seq<Move>, less: seq<Move>, j: nat, w: nat)
    requires j < |less| <= |more| && less[..j] == more[..j] && less[..j + 1] == more[..j + 1] && less[j] == more[j]
    ensures LeavesAt(n, moves, less, j, w) <==> LeavesAt(n, moves, more, j, w)
  {
    hide After, Leaves, Owes;
  }

  lemma AfterSound(n: nat, moves: seq<Move>)
    ensures Inv(After(n, moves)) && Chains(After(n, moves)) && |After(n, moves).pcs| == n
  {
  }

  lemma NotLeavingAt(n: nat, moves: seq<Move>, more: seq<Move>, k: nat, w: nat)
    requires k < |more| && more[k].t < n && !LeavesAt(n, moves, more, k, w)
    ensures var (s, r) := (After(n, moves + more[..k]), After(n, moves + more[..k + 1]));
            Leaves(s, r, w) ==> !((more[k].t == w && s.pcs[w].CancelCheck?) || Owes(r.pcs[more[k].t], w))
  {
    hide After, Owes;
  }

  /** The last of more does not take w out. */
  lemma NotLeaving(n: nat, moves: seq<Move>, more: seq<Move>, w: nat)
    requires more != [] && w < n && more[|more| - 1].t < n && !LeavesAt(n, moves, more, |more| - 1, w)
    ensures !Leaves(After(n, moves + more[..|more| - 1]), After(n, moves + more), w)
  {
    var (k, all) := (|more| - 1, moves + more);
    assert all[..|all| - 1] == moves + more[..k] && all[|all| - 1] == more[k] && more[..k + 1] == more;
    var s := After(n, moves + more[..k]);
    hide *;
    NotLeavingAt(n, moves, more, k, w);
    AfterStep(n, all);
    AfterSound(n, moves + more[..k]);
    LeavingStep(s, more[k].t, more[k].c, w);
  }

  lemma StaysOnce(s: State, t: nat, c: Choice, u: nat, w: nat)
    requires Inv(s) && Chains(s) && Shaped(s) && t < |s.pcs| && u < |s.pcs| && BeforeFlush(s.pcs[u]) && w in s.waitset
    ensures !Leaves(s, Step(s, t, c), w) ==> BeforeFlush(Step(s, t, c).pcs[u]) && w in Step(s, t, c).waitset
  {
    hide Inv, Chains, Step, BeforeFlush;
    if t == u {
      BeforeFlushGoesOn(s, u, c);
    } else {
      OthersStay(s, t, c, u);
    }
  }

  /** Main theorem: whoever is in the wait set when a notify_all passes its size test has been taken out of it by
      the time that call is over, by a notifier that then owes it a post, or by its own cancel. */
  lemma NotifyAllReachesAll(n: nat, moves: seq<Move>, c: Choice, more: seq<Move>, u: nat, w: nat)
    requires u < n && w < n && After(n, moves).pcs[u].AllSize? && w in After(n, moves).waitset
    requires After(n, moves + [Move(u, c)] + more).pcs[u].Idle?
    ensures LeftDuring(n, moves + [Move(u, c)], more, w)
  {
    var (s, begun) := (After(n, moves), moves + [Move(u, c)]);
    assert begun[..|begun| - 1] == moves;
    AfterStep(n, begun);
    ChainsWhole(s);
    assert s.size != 0;
    hide After, Inv, Chains, LeftDuring;
    if !LeftDuring(n, begun, more, w) {
      assert BeforeFlush(After(n, begun).pcs[u]) && w in After(n, begun).waitset;
      hide Step;
      StaysUntil(n, begun, more, u, w);
      assert false;
    }
  }
}
