/** The hazard-pointer stack: lock-free push and pop, with popped nodes deleted only when no thread has
    announced that it may still use them. Sequentially consistent interleaving, one shared access per step,
    any number of threads; freed addresses may be handed out again at once. */
module HazardStack {

  /** Where a node is. This is bookkeeping: no thread looks at it. */
  datatype Where = InStack | Private(t: nat) | Popped(t: nat) | Deferred(t: nat, slot: nat)

  datatype Node = Node(next: nat, data: int, place: Where)

  type Heap = map<nat, Node>

  /** Where a thread is. Address 0 is the null pointer; `x` is the data of the popped node. */
  datatype Pc =
    | Idle
    | PushLoad(a: nat)
    | PushStore(a: nat, next: nat)
    | PushCas(a: nat, next: nat)
    | AcqLoad
    | AcqPublish(v: nat)
    | AcqCheck(v: nat)
    | PopNext(v: nat)
    | PopCas(v: nat, next: nat)
    | PopRetry
    | PopEmpty
    | PopRelease(v: nat, x: int)
    | PopData(v: nat, x: int)
    | PumpLoad(v: nat, x: int, snap: seq<nat>)
    | PumpSlot(v: nat, x: int, snap: seq<nat>, i: nat)
    | Defer(v: nat, x: int)

  /** `stack` is bookkeeping: the addresses linked from head, in order. `fault` is set by a step that touches or deletes
      a node that is not allocated, or finds no free slot. */
  datatype State = State(
    head: nat, heap: Heap, hp: seq<nat>, defer: seq<seq<nat>>, size: seq<int>,
    pcs: seq<Pc>, stack: seq<nat>, fault: bool)

  /** What a thread does when idle, the address that `new` returns, and whether a weak compare-exchange fails by
      chance. */
  datatype Choice = Push(data: int, a: nat) | Pop | Pump | Weak(fails: bool)

  function Start(n: nat): State {
    State(0, map[], seq(n, t => 0), seq(n, t => seq(n, i => 0)), seq(n, t => 0), seq(n, t => Idle), [], false)
  }

  // ---- steps

  predicate Shaped(s: State) {
    && |s.hp| == |s.defer| == |s.size| == |s.pcs|
    && forall t :: 0 <= t < |s.pcs| ==> |s.defer[t]| == |s.pcs|
  }

  function Go(s: State, t: nat, pc: Pc): State
    requires t < |s.pcs|
  {
    s.(pcs := s.pcs[t := pc])
  }

  function Fault(s: State): State {
    s.(fault := true)
  }

  /** How many of the slots are taken. */
  function Taken(d: seq<nat>): nat {
    if d == [] then 0 else Taken(d[..|d| - 1]) + if d[|d| - 1] != 0 then 1 else 0
  }

  /** The first free slot, or the number of slots. */
  function FreeSlot(d: seq<nat>, i: nat): (k: nat)
    requires i <= |d|
    ensures i <= k <= |d| && (k < |d| ==> d[k] == 0)
    ensures forall j :: i <= j < k ==> d[j] != 0
    decreases |d| - i
  {
    if i == |d| || d[i] == 0 then i else FreeSlot(d, i + 1)
  }

  function Step(s: State, t: nat, c: Choice): State
    requires Shaped(s) && t < |s.pcs|
  {
    match s.pcs[t]
    case Idle => Begin(s, t, c)
    case PushLoad(a) => Go(s, t, PushStore(a, s.head))
    case PushStore(a, next) =>
      if a !in s.heap then Fault(s) else Go(s.(heap := s.heap[a := s.heap[a].(next := next)]), t, PushCas(a, next))
    case PushCas(a, next) => if s.head != next || c == Weak(true) then Go(s, t, PushStore(a, s.head)) else Link(s, t, a)
    case AcqLoad => Go(s, t, AcqPublish(s.head))
    case AcqPublish(v) => Go(s.(hp := s.hp[t := v]), t, AcqCheck(v))
    case AcqCheck(v) => Go(s, t, if s.head != v then AcqLoad else if v == 0 then PopEmpty else PopNext(v))
    case PopNext(v) => if v !in s.heap then Fault(s) else Go(s, t, PopCas(v, s.heap[v].next))
    case PopCas(v, next) => if s.head != v || c == Weak(true) then Go(s, t, PopRetry) else Unlink(s, t, v, next)
    case PopRetry => Go(s.(hp := s.hp[t := 0]), t, AcqLoad)
    case PopEmpty => Go(s.(hp := s.hp[t := 0]), t, Idle)
    case PopRelease(v, x) => Go(s.(hp := s.hp[t := 0]), t, PopData(v, x))
    case PopData(v, x) => if v !in s.heap then Fault(s) else Go(s, t, PumpLoad(v, s.heap[v].data, []))
    case PumpLoad(v, x, snap) =>
      Go(s, t, if |snap| < |s.hp| then PumpLoad(v, x, snap + [s.hp[|snap|]]) else PumpSlot(v, x, snap, 0))
    case PumpSlot(v, x, snap, i) =>
      if i < |s.pcs| then Scan(s, t, v, x, snap, i)
      else Go(s, t, if v == 0 then Idle else Defer(v, x))
    case Defer(v, x) => if s.size[t] == |s.pcs| then Delete(Go(s, t, Idle), v) else Keep(s, t, v)
  }

  function Begin(s: State, t: nat, c: Choice): State
    requires t < |s.pcs|
  {
    match c
    case Push(data, a) =>
      if a == 0 || a in s.heap then s
      else Go(s.(heap := s.heap[a := Node(0, data, Private(t))]), t, PushLoad(a))
    case Pop => Go(s, t, AcqLoad)
    case Pump => Go(s, t, PumpLoad(0, 0, []))
    case Weak(_) => s
  }

  /** The successful compare-exchange of push. */
  function Link(s: State, t: nat, a: nat): State
    requires t < |s.pcs|
  {
    if a !in s.heap then Fault(s)
    else Go(s.(head := a, stack := [a] + s.stack, heap := s.heap[a := s.heap[a].(place := InStack)]), t, Idle)
  }

  /** The successful compare-exchange of pop. */
  function Unlink(s: State, t: nat, v: nat, next: nat): State
    requires t < |s.pcs|
  {
    if v !in s.heap || s.stack == [] then Fault(s)
    else
      Go(s.(head := next, stack := s.stack[1..], heap := s.heap[v := s.heap[v].(place := Popped(t))]),
         t, PopRelease(v, s.heap[v].data))
  }

  function Delete(s: State, a: nat): State {
    if a !in s.heap then Fault(s) else s.(heap := s.heap - {a})
  }

  function Put(d: seq<nat>, i: nat, v: nat): (r: seq<nat>)
    ensures |r| == |d| && (i < |d| ==> r[i] == v) && forall j :: 0 <= j < |d| && j != i ==> r[j] == d[j]
  {
    if i < |d| then d[..i] + [v] + d[i + 1..] else d
  }

  /** smr_pump looks at slot i: what is there is deleted unless it is in the snapshot of the hazard pointers. */
  function Scan(s: State, t: nat, v: nat, x: int, snap: seq<nat>, i: nat): State
    requires Shaped(s) && t < |s.pcs| && i < |s.pcs|
  {
    var nn := s.defer[t][i];
    var r := Go(s, t, PumpSlot(v, x, snap, i + 1));
    if nn == 0 || nn in snap then r
    else Delete(r.(defer := s.defer[t := Put(s.defer[t], i, 0)], size := s.size[t := s.size[t] - 1]), nn)
  }

  /** smr_defer puts the node into a free slot. */
  function Keep(s: State, t: nat, v: nat): State
    requires Shaped(s) && t < |s.pcs|
  {
    var i := FreeSlot(s.defer[t], 0);
    if i == |s.defer[t]| || v !in s.heap then Fault(s)
    else Go(s.(defer := s.defer[t := Put(s.defer[t], i, v)], size := s.size[t := s.size[t] + 1],
               heap := s.heap[v := s.heap[v].(place := Deferred(t, i))]), t, Idle)
  }

  // ---- the invariant

  function NextOf(stack: seq<nat>, k: nat): nat {
    if k + 1 < |stack| then stack[k + 1] else 0
  }

  predicate Chain(heap: Heap, head: nat, stack: seq<nat>) {
    && head == (if stack == [] then 0 else stack[0])
    && (forall k :: 0 <= k < |stack| ==> stack[k] in heap && heap[stack[k]].place == InStack
                                         && heap[stack[k]].next == NextOf(stack, k))
    && forall j, k :: 0 <= j < k < |stack| ==> stack[j] != stack[k]
  }

  /** The nodes deferred by thread t sit in their slots. */
  predicate Slots(heap: Heap, t: nat, d: seq<nat>) {
    forall i :: 0 <= i < |d| && d[i] != 0 ==> d[i] in heap && heap[d[i]].place == Deferred(t, i)
  }

  /** The thread may still use node v. */
  predicate Uses(pc: Pc, v: nat) {
    (pc.PopNext? || pc.PopCas?) && pc.v == v
  }

  predicate At(heap: Heap, a: nat, place: Where) {
    a in heap && heap[a].place == place
  }

  /** v cannot be reused or changed. */
  predicate Fixed(heap: Heap, v: nat) {
    v in heap && !heap[v].place.Private?
  }

  /** What thread t knows about the node it is at. */
  predicate Knows(heap: Heap, t: nat, pc: Pc) {
    match pc
    case PushLoad(a) => At(heap, a, Private(t))
    case PushStore(a, _) => At(heap, a, Private(t))
    case PushCas(a, next) => At(heap, a, Private(t)) && heap[a].next == next
    case PopNext(v) => Fixed(heap, v)
    case PopCas(v, next) => Fixed(heap, v) && heap[v].next == next
    case PopRelease(v, x) => At(heap, v, Popped(t)) && heap[v].data == x
    case PopData(v, x) => At(heap, v, Popped(t)) && heap[v].data == x
    case PumpLoad(v, x, _) => v == 0 || (At(heap, v, Popped(t)) && heap[v].data == x)
    case PumpSlot(v, x, _, _) => v == 0 || (At(heap, v, Popped(t)) && heap[v].data == x)
    case Defer(v, x) => At(heap, v, Popped(t)) && heap[v].data == x
    case _ => true
  }

  /** The hazard pointer of a thread in each place. */
  predicate Announced(hp: nat, pc: Pc) {
    match pc
    case AcqLoad => true
    case AcqPublish(_) => true
    case AcqCheck(v) => hp == v
    case PopNext(v) => hp == v && v != 0
    case PopCas(v, _) => hp == v && v != 0
    case PopRetry => true
    case PopEmpty => true
    case PopRelease(_, _) => true
    case _ => hp == 0
  }

  /** The snapshot so far has every hazard pointer that guards a use of a node in d. */
  predicate Seen(pcs: seq<Pc>, snap: seq<nat>, d: seq<nat>) {
    forall j, i :: 0 <= j < |snap| && j < |pcs| && 0 <= i < |d| && d[i] != 0 && Uses(pcs[j], d[i]) ==> snap[j] == d[i]
  }

  predicate Pumping(pcs: seq<Pc>, t: nat, pc: Pc, d: seq<nat>) {
    match pc
    case PumpLoad(_, _, snap) => |snap| <= |pcs| && Seen(pcs, snap, d) && (t < |snap| ==> snap[t] == 0)
    case PumpSlot(_, _, snap, i) =>
      && |snap| == |pcs| && i <= |d| && Seen(pcs, snap, d) && (t < |snap| ==> snap[t] == 0)
      && forall k :: 0 <= k < i && d[k] != 0 ==> d[k] in snap
    case Defer(_, _) => Taken(d) < |pcs|
    case _ => true
  }

  predicate ThreadInv(s: State, t: nat)
    requires Shaped(s) && t < |s.pcs|
  {
    && Slots(s.heap, t, s.defer[t]) && s.size[t] == Taken(s.defer[t])
    && Knows(s.heap, t, s.pcs[t]) && Announced(s.hp[t], s.pcs[t]) && Pumping(s.pcs, t, s.pcs[t], s.defer[t])
  }

  predicate Inv(s: State) {
    && Shaped(s) && !s.fault && 0 !in s.heap && Chain(s.heap, s.head, s.stack)
    && forall t :: 0 <= t < |s.pcs| ==> ThreadInv(s, t)
  }

  // ---- the other threads

  /** Nobody but thread t may touch a node in this place. */
  predicate Keeps(place: Where, t: nat) {
    place == Private(t) || place == Popped(t) || (place.Deferred? && place.t == t)
  }

  /** A step of u on the heap leaves alone what thread t with program counter pc relies on. */
  ghost predicate Spares(heap: Heap, heap': Heap, t: nat, pc: Pc) {
    && (forall a :: a in heap && Keeps(heap[a].place, t) ==> a in heap' && heap'[a] == heap[a])
    && (forall a :: Uses(pc, a) && Fixed(heap, a) ==> Fixed(heap', a) && heap'[a].next == heap[a].next)
  }

  lemma OtherThread(s: State, r: State, t: nat)
    requires Shaped(s) && Shaped(r) && t < |s.pcs| == |r.pcs| && ThreadInv(s, t)
    requires r.hp[t] == s.hp[t] && r.defer[t] == s.defer[t] && r.size[t] == s.size[t] && r.pcs[t] == s.pcs[t]
    requires Spares(s.heap, r.heap, t, s.pcs[t])
    requires Pumping(r.pcs, t, s.pcs[t], s.defer[t])
    ensures ThreadInv(r, t)
  {
    hide Taken, Announced, Pumping;
  }

  /** Thread u goes on without starting to use a node: the snapshots of the others stay good. */
  lemma PumpingKeeps(pcs: seq<Pc>, u: nat, pc: Pc, t: nat, d: seq<nat>)
    requires u < |pcs| && t < |pcs| && t != u && Pumping(pcs, t, pcs[t], d)
    requires forall v :: Uses(pc, v) && !Uses(pcs[u], v) ==> v !in d
    ensures Pumping(pcs[u := pc], t, pcs[t], d)
  {
  }

  /** r is s after a step of thread t, as far as the others can see. */
  predicate Local(s: State, r: State, t: nat) {
    && Shaped(s) && Shaped(r) && |r.pcs| == |s.pcs| && t < |s.pcs| && !r.fault
    && r.pcs == s.pcs[t := r.pcs[t]]
    && forall u :: 0 <= u < |s.pcs| && u != t ==>
      r.hp[u] == s.hp[u] && r.defer[u] == s.defer[u] && r.size[u] == s.size[u]
  }

  ghost predicate SparesOthers(s: State, heap': Heap, t: nat) {
    forall u :: 0 <= u < |s.pcs| && u != t ==> Spares(s.heap, heap', u, s.pcs[u])
  }

  /** A node that the step makes the thread use is deferred by nobody. */
  ghost predicate UsesNothingDeferred(s: State, t: nat, pc: Pc)
    requires t < |s.pcs|
  {
    forall u, v :: 0 <= u < |s.defer| && Uses(pc, v) && !Uses(s.pcs[t], v) ==> v !in s.defer[u]
  }

  lemma Finish(s: State, r: State, t: nat)
    requires Inv(s) && Local(s, r, t) && SparesOthers(s, r.heap, t) && UsesNothingDeferred(s, t, r.pcs[t])
    requires 0 !in r.heap && Chain(r.heap, r.head, r.stack) && ThreadInv(r, t)
    ensures Inv(r)
  {
    hide Chain, Spares, Pumping, Uses;
    forall u | 0 <= u < |s.pcs| && u != t
      ensures ThreadInv(r, u)
    {
      assert ThreadInv(s, u);
      assert Pumping(s.pcs, u, s.pcs[u], s.defer[u]);
      PumpingKeeps(s.pcs, t, r.pcs[t], u, s.defer[u]);
      assert Spares(s.heap, r.heap, u, s.pcs[u]);
      OtherThread(s, r, u);
    }
  }

  lemma SparesSame(s: State, t: nat)
    ensures SparesOthers(s, s.heap, t)
  {
  }

  /** A node is changed that no other thread has, and whose use by others does not suffer. */
  lemma SparesUpdate(s: State, t: nat, a: nat, node: Node)
    requires a in s.heap
    requires s.heap[a].place == InStack || s.heap[a].place == Private(t) || s.heap[a].place == Popped(t)
    requires s.heap[a].place != Private(t) ==> !node.place.Private? && node.next == s.heap[a].next
    ensures SparesOthers(s, s.heap[a := node], t)
  {
  }

  lemma SparesNew(s: State, t: nat, a: nat, node: Node)
    requires a !in s.heap
    ensures SparesOthers(s, s.heap[a := node], t)
  {
  }

  lemma SparesDelete(s: State, t: nat, a: nat)
    requires a in s.heap && (s.heap[a].place == Popped(t) || (s.heap[a].place.Deferred? && s.heap[a].place.t == t))
    requires forall u :: 0 <= u < |s.pcs| && u != t ==> !Uses(s.pcs[u], a)
    ensures SparesOthers(s, s.heap - {a}, t)
  {
  }

  /** The stack does not see changes outside it. */
  lemma ChainUpdate(heap: Heap, head: nat, stack: seq<nat>, a: nat, node: Node)
    requires Chain(heap, head, stack) && (a in heap ==> heap[a].place != InStack)
    ensures Chain(heap[a := node], head, stack)
  {
  }

  lemma ChainDelete(heap: Heap, head: nat, stack: seq<nat>, a: nat)
    requires Chain(heap, head, stack) && (a in heap ==> heap[a].place != InStack)
    ensures Chain(heap - {a}, head, stack)
  {
  }

  lemma ChainPush(heap: Heap, head: nat, stack: seq<nat>, a: nat)
    requires Chain(heap, head, stack) && a in heap && heap[a].place != InStack && heap[a].next == head
    ensures Chain(heap[a := heap[a].(place := InStack)], a, [a] + stack)
  {
    var heap', stack' := heap[a := heap[a].(place := InStack)], [a] + stack;
    forall k | 0 <= k < |stack'|
      ensures stack'[k] in heap' && heap'[stack'[k]].place == InStack
      ensures heap'[stack'[k]].next == NextOf(stack', k)
    {
      if k > 0 {
        assert stack'[k] == stack[k - 1] && NextOf(stack', k) == NextOf(stack, k - 1);
      } else {
        assert NextOf(stack', 0) == head;
      }
    }
    assert a !in stack;
  }

  lemma ChainPop(heap: Heap, head: nat, stack: seq<nat>, t: nat)
    requires Chain(heap, head, stack) && stack != [] && head in heap
    ensures Chain(heap[head := heap[head].(place := Popped(t))], heap[head].next, stack[1..])
  {
    assert heap[stack[0]].next == NextOf(stack, 0);
    var heap', stack' := heap[head := heap[head].(place := Popped(t))], stack[1..];
    forall k | 0 <= k < |stack'|
      ensures stack'[k] in heap' && heap'[stack'[k]].place == InStack
      ensures heap'[stack'[k]].next == NextOf(stack', k)
    {
      assert stack'[k] == stack[k + 1] && NextOf(stack', k) == NextOf(stack, k + 1);
    }
  }

  /** The head of a stack that is not empty is a node of it, and null is the head of the empty one. */
  lemma HeadIs(s: State)
    requires Inv(s)
    ensures s.head == 0 <==> s.stack == []
    ensures s.head != 0 ==> s.head in s.heap && s.heap[s.head].place == InStack
    ensures s.head != 0 ==> s.heap[s.head].next == NextOf(s.stack, 0)
  {
    hide ThreadInv;
  }

  // ---- the steps keep the invariant

  lemma KeepsBegin(s: State, t: nat, c: Choice)
    requires Inv(s) && t < |s.pcs| && s.pcs[t] == Idle
    ensures Inv(Step(s, t, c))
  {
    var r := Step(s, t, c);
    assert ThreadInv(s, t);
    SparesSame(s, t);
    match c
    case Push(data, a) =>
      if a != 0 && a !in s.heap {
        SparesNew(s, t, a, Node(0, data, Private(t)));
        ChainUpdate(s.heap, s.head, s.stack, a, Node(0, data, Private(t)));
        hide Chain, SparesOthers, Taken, Seen;
        assert ThreadInv(r, t);
        Finish(s, r, t);
      }
    case Pop =>
      hide Chain, SparesOthers, Taken, Seen;
      assert ThreadInv(r, t);
      Finish(s, r, t);
    case Pump =>
      hide Chain, SparesOthers, Taken;
      assert ThreadInv(r, t);
      Finish(s, r, t);
    case Weak(_) =>
  }

  /** Steps that change nothing but the thread's own hazard pointer and place. */
  lemma KeepsOwn(s: State, t: nat, hp: nat, pc: Pc)
    requires Inv(s) && t < |s.pcs|
    requires Knows(s.heap, t, pc) && Announced(hp, pc) && Pumping(s.pcs[t := pc], t, pc, s.defer[t])
    requires UsesNothingDeferred(s, t, pc)
    ensures Inv(Go(s.(hp := s.hp[t := hp]), t, pc))
  {
    var r := Go(s.(hp := s.hp[t := hp]), t, pc);
    assert ThreadInv(s, t);
    SparesSame(s, t);
    hide Chain, SparesOthers, Taken, Knows, Announced, Pumping, UsesNothingDeferred;
    assert ThreadInv(r, t);
    Finish(s, r, t);
  }

  lemma SameHp(s: State, t: nat, pc: Pc)
    requires t < |s.pcs| == |s.hp|
    ensures Go(s.(hp := s.hp[t := s.hp[t]]), t, pc) == Go(s, t, pc)
  {
  }

  lemma KeepsPushLoad(s: State, t: nat, c: Choice)
    requires Inv(s) && t < |s.pcs| && s.pcs[t].PushLoad?
    ensures Inv(Step(s, t, c))
  {
    assert ThreadInv(s, t);
    SameHp(s, t, PushStore(s.pcs[t].a, s.head));
    hide Chain, Taken;
    KeepsOwn(s, t, s.hp[t], PushStore(s.pcs[t].a, s.head));
  }

  lemma KeepsPushStore(s: State, t: nat, c: Choice)
    requires Inv(s) && t < |s.pcs| && s.pcs[t].PushStore?
    ensures Inv(Step(s, t, c))
  {
    var r := Step(s, t, c);
    var a, next := s.pcs[t].a, s.pcs[t].next;
    assert ThreadInv(s, t);
    SparesUpdate(s, t, a, s.heap[a].(next := next));
    ChainUpdate(s.heap, s.head, s.stack, a, s.heap[a].(next := next));
    hide Chain, SparesOthers, Taken;
    assert ThreadInv(r, t);
    Finish(s, r, t);
  }

  lemma KeepsPushCas(s: State, t: nat, c: Choice)
    requires Inv(s) && t < |s.pcs| && s.pcs[t].PushCas?
    ensures Inv(Step(s, t, c))
  {
    var r := Step(s, t, c);
    var a, next := s.pcs[t].a, s.pcs[t].next;
    assert ThreadInv(s, t);
    if s.head != next || c == Weak(true) {
      SameHp(s, t, PushStore(a, s.head));
      hide Chain, Taken;
      KeepsOwn(s, t, s.hp[t], PushStore(a, s.head));
    } else {
      SparesUpdate(s, t, a, s.heap[a].(place := InStack));
      ChainPush(s.heap, s.head, s.stack, a);
      hide Chain, SparesOthers, Taken;
      assert ThreadInv(r, t);
      Finish(s, r, t);
    }
  }

  lemma KeepsAcquire(s: State, t: nat, c: Choice)
    requires Inv(s) && t < |s.pcs| && (s.pcs[t].AcqLoad? || s.pcs[t].AcqPublish? || s.pcs[t].PopRetry?
             || s.pcs[t].PopEmpty?)
    ensures Inv(Step(s, t, c))
  {
    assert ThreadInv(s, t);
    SameHp(s, t, AcqPublish(s.head));
    hide Chain, Taken;
    match s.pcs[t]
    case AcqLoad => KeepsOwn(s, t, s.hp[t], AcqPublish(s.head));
    case AcqPublish(v) => KeepsOwn(s, t, v, AcqCheck(v));
    case PopRetry => KeepsOwn(s, t, 0, AcqLoad);
    case PopEmpty => KeepsOwn(s, t, 0, Idle);
  }

  /** A node in the stack is in no slot. */
  lemma StackedNotDeferred(s: State, v: nat)
    requires Inv(s) && At(s.heap, v, InStack) && v != 0
    ensures forall u :: 0 <= u < |s.defer| ==> v !in s.defer[u]
  {
    hide Chain, Knows, Announced, Pumping, Taken;
    forall u | 0 <= u < |s.defer|
      ensures v !in s.defer[u]
    {
      assert ThreadInv(s, u);
    }
  }

  lemma KeepsCheck(s: State, t: nat, c: Choice)
    requires Inv(s) && t < |s.pcs| && s.pcs[t].AcqCheck?
    ensures Inv(Step(s, t, c))
  {
    var v := s.pcs[t].v;
    assert ThreadInv(s, t);
    HeadIs(s);
    var pc := if s.head != v then AcqLoad else if v == 0 then PopEmpty else PopNext(v);
    if pc.PopNext? {
      StackedNotDeferred(s, v);
    }
    SameHp(s, t, pc);
    hide Chain, Taken, Slots;
    KeepsOwn(s, t, s.hp[t], pc);
  }

  lemma KeepsNext(s: State, t: nat, c: Choice)
    requires Inv(s) && t < |s.pcs| && s.pcs[t].PopNext?
    ensures Inv(Step(s, t, c))
  {
    assert ThreadInv(s, t);
    var v := s.pcs[t].v;
    SameHp(s, t, PopCas(v, s.heap[v].next));
    hide Chain, Taken, Slots;
    KeepsOwn(s, t, s.hp[t], PopCas(v, s.heap[v].next));
  }

  lemma KeepsPopCas(s: State, t: nat, c: Choice)
    requires Inv(s) && t < |s.pcs| && s.pcs[t].PopCas?
    ensures Inv(Step(s, t, c))
  {
    var r := Step(s, t, c);
    var v, next := s.pcs[t].v, s.pcs[t].next;
    assert ThreadInv(s, t);
    if s.head != v || c == Weak(true) {
      SameHp(s, t, PopRetry);
      hide Chain, Taken, Slots;
      KeepsOwn(s, t, s.hp[t], PopRetry);
    } else {
      HeadIs(s);
      SparesUpdate(s, t, v, s.heap[v].(place := Popped(t)));
      ChainPop(s.heap, s.head, s.stack, t);
      hide Chain, SparesOthers, Taken;
      assert ThreadInv(r, t);
      Finish(s, r, t);
    }
  }

  lemma KeepsRelease(s: State, t: nat, c: Choice)
    requires Inv(s) && t < |s.pcs| && (s.pcs[t].PopRelease? || s.pcs[t].PopData?)
    ensures Inv(Step(s, t, c))
  {
    assert ThreadInv(s, t);
    hide Chain, Taken, Slots;
    match s.pcs[t]
    case PopRelease(v, x) => KeepsOwn(s, t, 0, PopData(v, x));
    case PopData(v, x) =>
      SameHp(s, t, PumpLoad(v, s.heap[v].data, []));
      KeepsOwn(s, t, s.hp[t], PumpLoad(v, s.heap[v].data, []));
  }

  lemma SeenMore(s: State, t: nat, snap: seq<nat>)
    requires Inv(s) && t < |s.pcs| && |snap| < |s.pcs| && Seen(s.pcs, snap, s.defer[t])
    ensures Seen(s.pcs, snap + [s.hp[|snap|]], s.defer[t])
  {
    hide Chain, Slots, Taken, Knows, Pumping;
    assert ThreadInv(s, |snap|);
  }

  lemma SeenOthers(pcs: seq<Pc>, t: nat, pc: Pc, snap: seq<nat>, d: seq<nat>)
    requires t < |pcs| && Seen(pcs, snap, d) && forall v :: !Uses(pc, v)
    ensures Seen(pcs[t := pc], snap, d)
  {
  }

  lemma KeepsPumpLoad(s: State, t: nat, c: Choice)
    requires Inv(s) && t < |s.pcs| && s.pcs[t].PumpLoad?
    ensures Inv(Step(s, t, c))
  {
    var v, x, snap := s.pcs[t].v, s.pcs[t].x, s.pcs[t].snap;
    assert ThreadInv(s, t);
    hide Chain, Taken, Slots, Seen;
    if |snap| < |s.hp| {
      var pc := PumpLoad(v, x, snap + [s.hp[|snap|]]);
      SeenMore(s, t, snap);
      SeenOthers(s.pcs, t, pc, pc.snap, s.defer[t]);
      SameHp(s, t, pc);
      KeepsOwn(s, t, s.hp[t], pc);
    } else {
      var pc := PumpSlot(v, x, snap, 0);
      SeenOthers(s.pcs, t, pc, snap, s.defer[t]);
      SameHp(s, t, pc);
      KeepsOwn(s, t, s.hp[t], pc);
    }
  }

  // ---- deleting

  lemma {:induction false} TakenPut(d: seq<nat>, i: nat, v: nat)
    requires i < |d|
    ensures Taken(Put(d, i, v)) == Taken(d) + (if v != 0 then 1 else 0) - (if d[i] != 0 then 1 else 0)
  {
    var n, e := |d| - 1, Put(d, i, v);
    if i < n {
      TakenPut(d[..n], i, v);
      assert e[..n] == Put(d[..n], i, v);
    } else {
      assert e[..n] == d[..n];
    }
  }

  lemma KeepsScanOn(s: State, t: nat)
    requires Inv(s) && t < |s.pcs| && s.pcs[t].PumpSlot? && s.pcs[t].i < |s.pcs|
    requires var nn := s.defer[t][s.pcs[t].i]; nn == 0 || nn in s.pcs[t].snap
    ensures Inv(Go(s, t, PumpSlot(s.pcs[t].v, s.pcs[t].x, s.pcs[t].snap, s.pcs[t].i + 1)))
  {
    var pc := PumpSlot(s.pcs[t].v, s.pcs[t].x, s.pcs[t].snap, s.pcs[t].i + 1);
    assert ThreadInv(s, t);
    hide Chain, Taken, Slots, Seen;
    SeenOthers(s.pcs, t, pc, pc.snap, s.defer[t]);
    SameHp(s, t, pc);
    KeepsOwn(s, t, s.hp[t], pc);
  }

  /** No other thread uses a node that the whole snapshot does not have. */
  lemma NobodyUses(s: State, t: nat)
    requires Inv(s) && t < |s.pcs| && s.pcs[t].PumpSlot? && s.pcs[t].i < |s.pcs|
    requires var nn := s.defer[t][s.pcs[t].i]; nn != 0 && nn !in s.pcs[t].snap
    ensures forall u :: 0 <= u < |s.pcs| ==> !Uses(s.pcs[u], s.defer[t][s.pcs[t].i])
  {
    assert ThreadInv(s, t);
    hide Chain, Taken, Slots, Knows, Announced, Uses;
    forall u | 0 <= u < |s.pcs|
      ensures !Uses(s.pcs[u], s.defer[t][s.pcs[t].i])
    {
      assert s.pcs[t].snap[u] in s.pcs[t].snap;
    }
  }

  lemma SlotsDelete(heap: Heap, t: nat, d: seq<nat>, i: nat)
    requires Slots(heap, t, d) && i < |d| && d[i] != 0
    ensures Slots(heap - {d[i]}, t, Put(d, i, 0))
  {
  }

  lemma KeepsDelete(s: State, t: nat)
    requires Inv(s) && t < |s.pcs| && s.pcs[t].PumpSlot? && s.pcs[t].i < |s.pcs|
    requires var nn := s.defer[t][s.pcs[t].i]; nn != 0 && nn !in s.pcs[t].snap
    ensures Inv(Scan(s, t, s.pcs[t].v, s.pcs[t].x, s.pcs[t].snap, s.pcs[t].i))
  {
    hide Chain, Seen, Uses, SparesOthers, Taken;
    var r := Scan(s, t, s.pcs[t].v, s.pcs[t].x, s.pcs[t].snap, s.pcs[t].i);
    var i, d := s.pcs[t].i, s.defer[t];
    assert ThreadInv(s, t);
    assert At(s.heap, d[i], Deferred(t, i));
    NobodyUses(s, t);
    SparesDelete(s, t, d[i]);
    ChainDelete(s.heap, s.head, s.stack, d[i]);
    TakenPut(d, i, 0);
    SlotsDelete(s.heap, t, d, i);
    hide Slots;
    DeletePumping(s.pcs, t, s.pcs[t], d);
    hide Pumping;
    assert UsesNothingDeferred(s, t, r.pcs[t]) by {
      NoUse(r.pcs[t]);
    }
    assert ThreadInv(r, t);
    Finish(s, r, t);
  }

  lemma NoUse(pc: Pc)
    requires pc.PumpSlot?
    ensures forall v :: !Uses(pc, v)
  {
  }

  lemma DeletePumping(pcs: seq<Pc>, t: nat, pc: Pc, d: seq<nat>)
    requires pc.PumpSlot? && t < |pcs| && |d| == |pcs| && pc.i < |d| && Pumping(pcs, t, pc, d)
    ensures var pc' := pc.(i := pc.i + 1);
            Pumping(pcs[t := pc'], t, pc', Put(d, pc.i, 0))
  {
  }

  // ---- deferring

  /** The distinct nodes in the slots all occur in the snapshot, which has one entry that is null: at most n - 1
      remain. */
  lemma {:induction false} TakenFits(d: seq<nat>, snap: set<nat>)
    requires forall i :: 0 <= i < |d| && d[i] != 0 ==> d[i] in snap
    requires forall i, j :: 0 <= i < j < |d| && d[i] != 0 ==> d[i] != d[j]
    ensures Taken(d) <= |snap|
  {
    if d != [] {
      var n := |d| - 1;
      if d[n] == 0 {
        TakenFits(d[..n], snap);
      } else {
        TakenFits(d[..n], snap - {d[n]});
      }
    }
  }

  function NonNull(snap: seq<nat>): (s: set<nat>)
    ensures forall x :: x in s <==> x in snap && x != 0
  {
    set x | x in snap && x != 0
  }

  lemma {:induction false} NonNullSize(snap: seq<nat>)
    ensures |NonNull(snap)| <= |snap|
    ensures forall t :: 0 <= t < |snap| && snap[t] == 0 ==> |NonNull(snap)| < |snap|
  {
    if snap != [] {
      var n := |snap| - 1;
      NonNullSize(snap[..n]);
      assert snap == snap[..n] + [snap[n]];
      if snap[n] == 0 {
        assert NonNull(snap) == NonNull(snap[..n]);
      } else {
        assert NonNull(snap) == NonNull(snap[..n]) + {snap[n]};
      }
      assert forall t :: 0 <= t < n && snap[t] == 0 ==> snap[..n][t] == 0;
    }
  }

  /** Pigeonhole: after smr_pump at most n - 1 deferred nodes remain, for every number n of threads. */
  lemma PumpMakesRoom(s: State, t: nat)
    requires Inv(s) && t < |s.pcs| && s.pcs[t].PumpSlot? && s.pcs[t].i == |s.pcs|
    ensures Taken(s.defer[t]) < |s.pcs|
  {
    assert ThreadInv(s, t);
    var d, snap := s.defer[t], s.pcs[t].snap;
    NonNullSize(snap);
    assert snap[t] == 0;
    hide Chain, Taken, Seen, Knows, Announced;
    assert forall i, j :: 0 <= i < j < |d| && d[i] != 0 ==> d[i] != d[j];
    TakenFits(d, NonNull(snap));
  }

  lemma KeepsPumpEnd(s: State, t: nat, c: Choice)
    requires Inv(s) && t < |s.pcs| && s.pcs[t].PumpSlot? && s.pcs[t].i >= |s.pcs|
    ensures Inv(Step(s, t, c))
  {
    assert ThreadInv(s, t);
    PumpMakesRoom(s, t);
    var pc := if s.pcs[t].v == 0 then Idle else Defer(s.pcs[t].v, s.pcs[t].x);
    hide Chain, Taken, Slots, Seen;
    SameHp(s, t, pc);
    KeepsOwn(s, t, s.hp[t], pc);
  }

  lemma {:induction false} AllTaken(d: seq<nat>)
    requires forall j :: 0 <= j < |d| ==> d[j] != 0
    ensures Taken(d) == |d|
  {
    if d != [] {
      AllTaken(d[..|d| - 1]);
    }
  }

  /** smr_defer finds a free slot, and never deletes the node unprotected. */
  lemma DeferFinds(s: State, t: nat)
    requires Inv(s) && t < |s.pcs| && s.pcs[t].Defer?
    ensures s.size[t] != |s.pcs| && FreeSlot(s.defer[t], 0) < |s.defer[t]|
  {
    assert ThreadInv(s, t);
    if FreeSlot(s.defer[t], 0) == |s.defer[t]| {
      AllTaken(s.defer[t]);
    }
    hide Chain, Slots, Seen, Taken;
  }

  lemma SlotsKeep(heap: Heap, t: nat, d: seq<nat>, i: nat, v: nat)
    requires Slots(heap, t, d) && i < |d| && At(heap, v, Popped(t))
    ensures Slots(heap[v := heap[v].(place := Deferred(t, i))], t, Put(d, i, v))
  {
  }

  lemma KeepsDefer(s: State, t: nat, c: Choice)
    requires Inv(s) && t < |s.pcs| && s.pcs[t].Defer?
    ensures Inv(Step(s, t, c))
  {
    var r := Step(s, t, c);
    var v, i := s.pcs[t].v, FreeSlot(s.defer[t], 0);
    DeferFinds(s, t);
    assert ThreadInv(s, t);
    SparesUpdate(s, t, v, s.heap[v].(place := Deferred(t, i)));
    ChainUpdate(s.heap, s.head, s.stack, v, s.heap[v].(place := Deferred(t, i)));
    TakenPut(s.defer[t], i, v);
    SlotsKeep(s.heap, t, s.defer[t], i, v);
    hide Chain, Taken, Slots, Seen, SparesOthers;
    assert ThreadInv(r, t);
    Finish(s, r, t);
  }

  lemma StepKeeps(s: State, t: nat, c: Choice)
    requires Inv(s) && t < |s.pcs|
    ensures Inv(Step(s, t, c))
  {
    assert Shaped(s);
    hide Inv;
    match s.pcs[t]
    case Idle => KeepsBegin(s, t, c);
    case PushLoad(_) => KeepsPushLoad(s, t, c);
    case PushStore(_, _) => KeepsPushStore(s, t, c);
    case PushCas(_, _) => KeepsPushCas(s, t, c);
    case AcqCheck(_) => KeepsCheck(s, t, c);
    case PopNext(_) => KeepsNext(s, t, c);
    case PopCas(_, _) => KeepsPopCas(s, t, c);
    case PopRelease(_, _) => KeepsRelease(s, t, c);
    case PopData(_, _) => KeepsRelease(s, t, c);
    case PumpLoad(_, _, _) => KeepsPumpLoad(s, t, c);
    case PumpSlot(_, _, snap, i) =>
      if i >= |s.pcs| {
        KeepsPumpEnd(s, t, c);
      } else if s.defer[t][i] == 0 || s.defer[t][i] in snap {
        KeepsScanOn(s, t);
      } else {
        KeepsDelete(s, t);
      }
    case Defer(_, _) => KeepsDefer(s, t, c);
    case _ => KeepsAcquire(s, t, c);
  }

  // ---- nothing leaks

  /** The thread has the node it is about to push, or has popped. */
  predicate Has(pc: Pc, a: nat, popped: bool) {
    if popped then (pc.PopRelease? || pc.PopData? || pc.PumpLoad? || pc.PumpSlot? || pc.Defer?) && pc.v == a && a != 0
    else (pc.PushLoad? || pc.PushStore? || pc.PushCas?) && pc.a == a
  }

  /** Node a is where its bookkeeping says. */
  predicate Home(s: State, a: nat) {
    a in s.heap ==>
      match s.heap[a].place
      case InStack => a in s.stack
      case Private(u) => u < |s.pcs| && Has(s.pcs[u], a, false)
      case Popped(u) => u < |s.pcs| && Has(s.pcs[u], a, true)
      case Deferred(u, i) => u < |s.defer| && i < |s.defer[u]| && s.defer[u][i] == a
  }

  ghost predicate Homes(s: State) {
    forall a :: Home(s, a)
  }

  /** A step that moves node x and thread t only. */
  ghost predicate Moves(s: State, r: State, t: nat, x: nat) {
    && t < |s.pcs| == |r.pcs| && r.pcs == s.pcs[t := r.pcs[t]] && Shaped(s) && Shaped(r)
    && (forall a :: a != x && a in r.heap ==> a in s.heap && r.heap[a].place == s.heap[a].place)
    && (forall a :: a != x && a in s.stack ==> a in r.stack)
    && (forall a, p :: a != x && Has(s.pcs[t], a, p) ==> Has(r.pcs[t], a, p))
    && (forall u, i :: 0 <= u < |s.pcs| && 0 <= i < |s.pcs| && s.defer[u][i] != x && s.defer[u][i] != 0 ==>
          r.defer[u][i] == s.defer[u][i])
  }

  lemma HomesMove(s: State, r: State, t: nat, x: nat)
    requires Homes(s) && Moves(s, r, t, x) && Home(r, x) && 0 !in r.heap
    ensures Homes(r)
  {
    hide Has;
    forall a
      ensures Home(r, a)
    {
      assert Home(s, a);
    }
  }

  lemma HomesBegin(s: State, t: nat, c: Choice)
    requires Inv(s) && Homes(s) && t < |s.pcs| && s.pcs[t] == Idle
    ensures Homes(Step(s, t, c))
  {
    StepKeeps(s, t, c);
    StepShaped(s, t, c);
    HomesMove(s, Step(s, t, c), t, if c.Push? then c.a else 0);
  }

  /** Steps that leave the places of all nodes and the slots alone. */
  lemma HomesStay(s: State, r: State, t: nat)
    requires Homes(s) && Shaped(s) && Shaped(r) && t < |s.pcs| == |r.pcs| && r.pcs == s.pcs[t := r.pcs[t]]
             && 0 !in r.heap
    requires r.heap.Keys == s.heap.Keys && (forall a :: a in s.heap ==> r.heap[a].place == s.heap[a].place)
    requires r.stack == s.stack && r.defer == s.defer && forall a, p :: Has(s.pcs[t], a, p) ==> Has(r.pcs[t], a, p)
    ensures Homes(r)
  {
    hide Has;
    forall a
      ensures Home(r, a)
    {
      assert Home(s, a);
    }
  }

  lemma HomesPush(s: State, t: nat, c: Choice)
    requires Inv(s) && Homes(s) && t < |s.pcs| && Pushes(s, t, c)
    ensures Homes(Step(s, t, c))
  {
    assert ThreadInv(s, t);
    StepKeeps(s, t, c);
    StepShaped(s, t, c);
    var r, a := Step(s, t, c), s.pcs[t].a;
    assert Shaped(s) && 0 !in r.heap;
    hide Inv, Chain, ThreadInv, Shaped;
    HomesMove(s, r, t, a);
  }

  lemma HomesPop(s: State, t: nat, c: Choice)
    requires Inv(s) && Homes(s) && t < |s.pcs| && Pops(s, t, c)
    ensures Homes(Step(s, t, c))
  {
    PopInstallsSecond(s, t, c);
    assert ThreadInv(s, t);
    StepKeeps(s, t, c);
    StepShaped(s, t, c);
    var r, v := Step(s, t, c), s.pcs[t].v;
    assert Shaped(s) && 0 !in r.heap;
    hide Inv, Chain, ThreadInv, Shaped;
    assert s.stack == [v] + s.stack[1..];
    HomesMove(s, r, t, v);
  }

  lemma HomesScan(s: State, t: nat, c: Choice)
    requires Inv(s) && Homes(s) && t < |s.pcs| && s.pcs[t].PumpSlot? && s.pcs[t].i < |s.pcs|
    ensures Homes(Step(s, t, c))
  {
    assert ThreadInv(s, t);
    StepKeeps(s, t, c);
    StepShaped(s, t, c);
    var r, x := Step(s, t, c), s.defer[t][s.pcs[t].i];
    assert Shaped(s) && 0 !in r.heap;
    hide Inv, Chain, ThreadInv;
    if x == 0 || x in s.pcs[t].snap {
      HomesStay(s, r, t);
    } else {
      HomesMove(s, r, t, x);
    }
  }

  lemma HomesDefer(s: State, t: nat, c: Choice)
    requires Inv(s) && Homes(s) && t < |s.pcs| && s.pcs[t].Defer?
    ensures Homes(Step(s, t, c))
  {
    DeferFinds(s, t);
    assert ThreadInv(s, t);
    StepKeeps(s, t, c);
    StepShaped(s, t, c);
    var r := Step(s, t, c);
    assert Shaped(s) && 0 !in r.heap;
    hide Inv, Chain, ThreadInv;
    HomesMove(s, r, t, s.pcs[t].v);
  }

  lemma HomesElse(s: State, t: nat, c: Choice)
    requires Inv(s) && Homes(s) && t < |s.pcs| && !s.pcs[t].Idle? && !Pushes(s, t, c) && !Pops(s, t, c)
    requires !s.pcs[t].Defer? && !(s.pcs[t].PumpSlot? && s.pcs[t].i < |s.pcs|)
    ensures Homes(Step(s, t, c))
  {
    assert ThreadInv(s, t);
    StepKeeps(s, t, c);
    StepShaped(s, t, c);
    var r := Step(s, t, c);
    assert Shaped(s) && 0 !in r.heap;
    hide Inv, Chain, Slots, Seen, Announced;
    HomesStay(s, r, t);
  }

  lemma HomesStep(s: State, t: nat, c: Choice)
    requires Inv(s) && Homes(s) && t < |s.pcs|
    ensures Shaped(s) && Homes(Step(s, t, c))
  {
    assert Shaped(s);
    hide Inv, Homes, Step;
    if s.pcs[t].Idle? {
      HomesBegin(s, t, c);
    } else if Pushes(s, t, c) {
      HomesPush(s, t, c);
    } else if Pops(s, t, c) {
      HomesPop(s, t, c);
    } else if s.pcs[t].Defer? {
      HomesDefer(s, t, c);
    } else if s.pcs[t].PumpSlot? && s.pcs[t].i < |s.pcs| {
      HomesScan(s, t, c);
    } else {
      HomesElse(s, t, c);
    }
  }

  // ---- runs

  datatype Move = Move(t: nat, c: Choice)

  /** n threads after any interleaving of steps. */
  function After(n: nat, moves: seq<Move>): (s: State)
    ensures Shaped(s) && |s.pcs| == n
  {
    if moves == [] then Start(n)
    else
      var s, m := After(n, moves[..|moves| - 1]), moves[|moves| - 1];
      if m.t < n then (StepShaped(s, m.t, m.c); Step(s, m.t, m.c)) else s
  }

  lemma StepShaped(s: State, t: nat, c: Choice)
    requires Shaped(s) && t < |s.pcs|
    ensures Shaped(Step(s, t, c)) && |Step(s, t, c).pcs| == |s.pcs|
  {
  }

  lemma {:induction false} NoneTaken(n: nat)
    ensures Taken(seq(n, i => 0)) == 0
  {
    if n > 0 {
      assert seq(n, i => 0)[..n - 1] == seq(n - 1, i => 0);
      NoneTaken(n - 1);
    }
  }

  lemma StartHolds(n: nat)
    ensures Inv(Start(n)) && Homes(Start(n))
  {
    NoneTaken(n);
  }

  lemma {:induction false} Always(n: nat, moves: seq<Move>)
    ensures Inv(After(n, moves)) && Homes(After(n, moves))
  {
    hide Inv, Step, Homes;
    if moves == [] {
      StartHolds(n);
    } else {
      var s, m := After(n, moves[..|moves| - 1]), moves[|moves| - 1];
      Always(n, moves[..|moves| - 1]);
      if m.t < n {
        StepKeeps(s, m.t, m.c);
        HomesStep(s, m.t, m.c);
      }
    }
  }

  /** Main theorem: for any number of threads and any interleaving, no step touches or deletes a node that is not
      allocated, although addresses are reused, and the search for a free slot never fails. */
  lemma NoFault(n: nat, moves: seq<Move>)
    ensures !After(n, moves).fault
  {
    Always(n, moves);
    hide After;
  }

  /** Main theorem: the branch of smr_defer that deletes at once is never taken, and a free slot is there. */
  lemma DeferKeeps(n: nat, moves: seq<Move>, t: nat)
    requires t < n && After(n, moves).pcs[t].Defer?
    ensures var s := After(n, moves);
            s.size[t] < n && FreeSlot(s.defer[t], 0) < n && Taken(s.defer[t]) < n
  {
    Always(n, moves);
    var s := After(n, moves);
    hide After;
    DeferFinds(s, t);
    assert ThreadInv(s, t);
  }

  /** What the stack holds, top first. */
  function Contents(heap: Heap, stack: seq<nat>): (c: seq<int>)
    ensures |c| == |stack|
    ensures forall k :: 0 <= k < |stack| ==> c[k] == if stack[k] in heap then heap[stack[k]].data else 0
  {
    seq(|stack|, k requires 0 <= k < |stack| => if stack[k] in heap then heap[stack[k]].data else 0)
  }

  predicate SameData(h: Heap, r: Heap) {
    forall a :: a in h && a in r ==> r[a].data == h[a].data
  }

  lemma DataOfBegin(s: State, t: nat, c: Choice)
    requires t < |s.pcs|
    ensures SameData(s.heap, Begin(s, t, c).heap)
  {
  }

  lemma DataOfPump(s: State, t: nat, v: nat, x: int, snap: seq<nat>, i: nat)
    requires Shaped(s) && t < |s.pcs|
    ensures i < |s.pcs| ==> SameData(s.heap, Scan(s, t, v, x, snap, i).heap)
    ensures SameData(s.heap, Keep(s, t, v).heap) && SameData(s.heap, Delete(Go(s, t, Idle), v).heap)
  {
  }

  /** Nothing changes the data of a node while it is allocated. */
  lemma DataFixed(s: State, t: nat, c: Choice)
    requires Shaped(s) && t < |s.pcs|
    ensures SameData(s.heap, Step(s, t, c).heap)
  {
    hide Begin, Scan, Keep, Delete;
    match s.pcs[t]
    case Idle => DataOfBegin(s, t, c);
    case PumpSlot(v, x, snap, i) => DataOfPump(s, t, v, x, snap, i);
    case Defer(v, x) => DataOfPump(s, t, v, x, [], 0);
    case _ =>
  }

  predicate Pushes(s: State, t: nat, c: Choice)
    requires t < |s.pcs|
  {
    s.pcs[t].PushCas? && s.head == s.pcs[t].next && c != Weak(true)
  }

  predicate Pops(s: State, t: nat, c: Choice)
    requires t < |s.pcs|
  {
    s.pcs[t].PopCas? && s.head == s.pcs[t].v && c != Weak(true)
  }

  lemma StackMoves(s: State, t: nat, c: Choice)
    requires Inv(s) && t < |s.pcs|
    ensures !Pushes(s, t, c) && !Pops(s, t, c) ==> Step(s, t, c).stack == s.stack
  {
    assert ThreadInv(s, t);
    hide Chain, Slots, Seen, Taken;
  }

  /** No ABA: a successful pop removes the node it protects, and installs the node that is second now. */
  lemma PopInstallsSecond(s: State, t: nat, c: Choice)
    requires Inv(s) && t < |s.pcs| && Pops(s, t, c)
    ensures s.stack != [] && s.stack[0] == s.pcs[t].v && s.pcs[t].next == NextOf(s.stack, 0)
    ensures Step(s, t, c).stack == s.stack[1..] && s.pcs[t].v in s.heap
            && Step(s, t, c).pcs[t] == PopRelease(s.pcs[t].v, s.heap[s.pcs[t].v].data)
  {
    assert ThreadInv(s, t);
    HeadIs(s);
    hide Slots, Seen, Taken;
  }

  lemma PushLinks(s: State, t: nat, c: Choice)
    requires Inv(s) && t < |s.pcs| && Pushes(s, t, c)
    ensures s.pcs[t].a in s.heap && Step(s, t, c).stack == [s.pcs[t].a] + s.stack
  {
    assert ThreadInv(s, t);
    hide Chain, Slots, Seen, Taken;
  }

  lemma ContentsSame(s: State, r: State, stack: seq<nat>)
    requires forall k :: 0 <= k < |stack| ==> stack[k] in s.heap && stack[k] in r.heap
    requires SameData(s.heap, r.heap)
    ensures Contents(r.heap, stack) == Contents(s.heap, stack)
  {
  }

  lemma Allocated(s: State)
    requires Inv(s)
    ensures forall k :: 0 <= k < |s.stack| ==> s.stack[k] in s.heap
  {
  }

  /** Main theorem: the steps refine an atomic stack. A push puts its data on top in one step; a pop takes the top in
      one step, without ABA; no other step changes the contents; the data read later is the data that was on top;
      and a pop that finds nothing has seen the stack empty. */
  lemma Refines(n: nat, moves: seq<Move>, t: nat, c: Choice)
    requires t < n
    ensures var s := After(n, moves);
            var r := Step(s, t, c);
            var before, after := Contents(s.heap, s.stack), Contents(r.heap, r.stack);
            && (Pushes(s, t, c) ==> s.pcs[t].a in s.heap && after == [s.heap[s.pcs[t].a].data] + before)
            && (Pops(s, t, c) ==> before != [] && after == before[1..] && r.pcs[t] == PopRelease(s.pcs[t].v, before[0])
                                  && s.pcs[t].next == NextOf(s.stack, 0))
            && (!Pushes(s, t, c) && !Pops(s, t, c) ==> after == before)
            && (s.pcs[t].PopData? ==> r.pcs[t] == PumpLoad(s.pcs[t].v, s.pcs[t].x, []))
            && (r.pcs[t].PopEmpty? && !s.pcs[t].PopEmpty? ==> before == [])
  {
    Always(n, moves);
    var s := After(n, moves);
    hide After;
    RefinesAt(s, t, c);
  }

  lemma ReadsItsData(s: State, t: nat, c: Choice)
    requires Shaped(s) && Inv(s) && t < |s.pcs|
    ensures var r := Step(s, t, c);
            && |r.pcs| == |s.pcs|
            && (s.pcs[t].PopData? ==> r.pcs[t] == PumpLoad(s.pcs[t].v, s.pcs[t].x, []))
            && (r.pcs[t].PopEmpty? && !s.pcs[t].PopEmpty? ==> s.stack == [])
  {
    assert ThreadInv(s, t);
    HeadIs(s);
    hide Inv, Chain, Slots, Seen, Taken;
  }

  lemma PushContents(s: State, r: State, a: nat)
    requires forall k :: 0 <= k < |r.stack| ==> r.stack[k] in r.heap
    requires forall k :: 0 <= k < |s.stack| ==> s.stack[k] in s.heap
    requires SameData(s.heap, r.heap) && a in s.heap && r.stack == [a] + s.stack
    ensures Contents(r.heap, r.stack) == [s.heap[a].data] + Contents(s.heap, s.stack)
  {
    assert r.stack[0] == a && forall k :: 0 <= k < |s.stack| ==> r.stack[k + 1] == s.stack[k];
  }

  lemma RefinesAt(s: State, t: nat, c: Choice)
    requires Inv(s) && t < |s.pcs|
    ensures var r := Step(s, t, c);
            var before, after := Contents(s.heap, s.stack), Contents(r.heap, r.stack);
            && (Pushes(s, t, c) ==> s.pcs[t].a in s.heap && after == [s.heap[s.pcs[t].a].data] + before)
            && (Pops(s, t, c) ==> before != [] && after == before[1..] && r.pcs[t] == PopRelease(s.pcs[t].v, before[0])
                                  && s.pcs[t].next == NextOf(s.stack, 0))
            && (!Pushes(s, t, c) && !Pops(s, t, c) ==> after == before)
            && (s.pcs[t].PopData? ==> r.pcs[t] == PumpLoad(s.pcs[t].v, s.pcs[t].x, []))
            && (r.pcs[t].PopEmpty? && !s.pcs[t].PopEmpty? ==> before == [])
  {
    var r := Step(s, t, c);
    assert Shaped(s);
    hide Inv, Step;
    StepKeeps(s, t, c);
    Allocated(s);
    Allocated(r);
    DataFixed(s, t, c);
    ReadsItsData(s, t, c);
    if Pushes(s, t, c) {
      PushLinks(s, t, c);
      PushContents(s, r, s.pcs[t].a);
    } else if Pops(s, t, c) {
      PopInstallsSecond(s, t, c);
      assert Contents(s.heap, s.stack)[1..] == Contents(s.heap, s.stack[1..]);
      ContentsSame(s, r, r.stack);
    } else {
      StackMoves(s, t, c);
      ContentsSame(s, r, s.stack);
    }
  }

  /** Main theorem: nothing leaks. When no operation is under way, every allocated node is in the stack or in some
      thread's slots. */
  lemma NothingLeaks(n: nat, moves: seq<Move>, a: nat)
    requires (forall t :: 0 <= t < n ==> After(n, moves).pcs[t] == Idle) && a in After(n, moves).heap
    ensures var s := After(n, moves);
            a in s.stack || exists u, i :: 0 <= u < n && 0 <= i < n && s.defer[u][i] == a
  {
    Always(n, moves);
    var s := After(n, moves);
    hide After;
    assert Home(s, a);
    assert Shaped(s);
    hide Inv;
  }

  // ---- operations end

  /** How many steps of its own a thread is away from the end of its operation, if no compare-exchange has to be
      repeated. */
  function StepsLeft(pc: Pc, n: nat): nat {
    match pc
    case Idle => 0
    case PushLoad(_) => 3
    case PushStore(_, _) => 2
    case PushCas(_, _) => 1
    case AcqLoad => 2 * n + 11
    case AcqPublish(_) => 2 * n + 10
    case AcqCheck(_) => 2 * n + 9
    case PopNext(_) => 2 * n + 8
    case PopCas(_, _) => 2 * n + 7
    case PopRetry => 2 * n + 12
    case PopEmpty => 1
    case PopRelease(_, _) => 2 * n + 6
    case PopData(_, _) => 2 * n + 5
    case PumpLoad(_, _, snap) => n + 4 + if |snap| <= n then n - |snap| else 0
    case PumpSlot(_, _, _, i) => 3 + if i <= n then n - i else 0
    case Defer(_, _) => 1
  }

  /** The head is not what the thread has read, or a weak compare-exchange fails by chance: it has to start again. */
  predicate Repeats(s: State, t: nat, c: Choice)
    requires t < |s.pcs|
  {
    match s.pcs[t]
    case PushCas(_, next) => s.head != next || c == Weak(true)
    case AcqCheck(v) => s.head != v
    case PopCas(v, _) => s.head != v || c == Weak(true)
    case _ => false
  }

  lemma PushEnds(s: State, t: nat, c: Choice)
    requires Shaped(s) && t < |s.pcs| && !Repeats(s, t, c) && !s.fault && !Step(s, t, c).fault
    requires s.pcs[t].PushLoad? || s.pcs[t].PushStore? || s.pcs[t].PushCas?
    ensures t < |Step(s, t, c).pcs| && StepsLeft(Step(s, t, c).pcs[t], |s.pcs|) < StepsLeft(s.pcs[t], |s.pcs|)
  {
  }

  lemma PopEnds(s: State, t: nat, c: Choice)
    requires Shaped(s) && t < |s.pcs| && !Repeats(s, t, c) && !s.fault && !Step(s, t, c).fault
    requires var pc := s.pcs[t];
             || pc.AcqLoad? || pc.AcqPublish? || pc.AcqCheck? || pc.PopNext? || pc.PopCas? || pc.PopRetry?
             || pc.PopEmpty?
             || pc.PopRelease? || pc.PopData?
    ensures t < |Step(s, t, c).pcs| && StepsLeft(Step(s, t, c).pcs[t], |s.pcs|) < StepsLeft(s.pcs[t], |s.pcs|)
  {
  }

  lemma PumpEnds(s: State, t: nat, c: Choice)
    requires Shaped(s) && t < |s.pcs| && !s.fault && !Step(s, t, c).fault
    requires s.pcs[t].PumpLoad? || s.pcs[t].PumpSlot? || s.pcs[t].Defer?
    ensures t < |Step(s, t, c).pcs| && StepsLeft(Step(s, t, c).pcs[t], |s.pcs|) < StepsLeft(s.pcs[t], |s.pcs|)
  {
    hide Put, FreeSlot;
  }

  /** Main theorem: operations end, without locks. In every reachable state, every step of a thread inside an operation
      brings the operation nearer to its end, unless the head is not what the thread has read, that is, unless another
      thread has pushed or popped, or a weak compare-exchange fails by chance. An idle thread announces no node, and
      begins what it is told to, a push with any address that is not allocated. */
  lemma OperationsEnd(n: nat, moves: seq<Move>, t: nat, c: Choice)
    requires t < n
    ensures var s := After(n, moves);
            var pc, r := s.pcs[t], Step(s, t, c);
            && t < |r.pcs|
            && (!pc.Idle? && !Repeats(s, t, c) ==> StepsLeft(r.pcs[t], n) < StepsLeft(pc, n))
            && StepsLeft(pc, n) <= 2 * n + 12
            && (pc.Idle? ==>
                  && s.hp[t] == 0
                  && (c.Pop? ==> r.pcs[t].AcqLoad?)
                  && (c.Pump? ==> r.pcs[t].PumpLoad?)
                  && (c.Push? && c.a != 0 && c.a !in s.heap ==>
                        r.pcs[t] == PushLoad(c.a) && c.a in r.heap && r.heap[c.a].data == c.data))
  {
    Always(n, moves);
    var s := After(n, moves);
    hide After;
    assert ThreadInv(s, t) && !s.fault && Shaped(s);
    StepKeeps(s, t, c);
    var r, pc := Step(s, t, c), s.pcs[t];
    assert !r.fault && |r.pcs| == n by {
      StepShaped(s, t, c);
      hide Step;
    }
    hide Inv, Slots, Knows, Pumping, Taken;
    if pc.Idle? || Repeats(s, t, c) {
    } else if pc.PushLoad? || pc.PushStore? || pc.PushCas? {
      hide Step, StepsLeft;
      PushEnds(s, t, c);
    } else if pc.PumpLoad? || pc.PumpSlot? || pc.Defer? {
      hide Step, StepsLeft;
      PumpEnds(s, t, c);
    } else {
      hide Step, StepsLeft;
      PopEnds(s, t, c);
    }
    LeftAtMost(pc, n);
  }

  lemma LeftAtMost(pc: Pc, n: nat)
    ensures StepsLeft(pc, n) <= 2 * n + 12
  {
  }
}
