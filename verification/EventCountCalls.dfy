/** What a call of the eventcount has done when it is over: notify_one wakes the first, notify wakes those for which the
    predicate has answered yes, notify_all wakes everybody. */
module EventCountCalls {
  import opened WaitSets
  import opened LinkedList
  import opened EventCount

  /** The thread's latest call: what was called; whether the wait set had anybody at the size test; whether the
      call has got to the list, and what it has found there; the nodes at which the predicate was asked, and those
      with yes; who has left the wait set and who has been posted by steps of the call. In order. */
  datatype Call = Call(
    kind: Choice, sized: bool, listed: bool, found: seq<nat>, asked: seq<nat>, yes: seq<nat>, taken: seq<nat>,
    posted: seq<nat>)

  /** Those who are gone, in order. */
  function Lost(was: seq<nat>, now: seq<nat>): seq<nat> {
    if was == [] then [] else (if was[0] in now then [] else [was[0]]) + Lost(was[1..], now)
  }

  /** Those whose semaphore is higher. */
  function Raised(was: seq<nat>, now: seq<nat>): seq<nat>
    requires |was| == |now|
  {
    if was == [] then []
    else
      var k := |was| - 1;
      Raised(was[..k], now[..k]) + if now[k] > was[k] then [k] else []
  }

  function Reversed(s: seq<nat>): (r: seq<nat>)
    ensures |r| == |s|
  {
    if s == [] then [] else Reversed(s[1..]) + [s[0]]
  }

  function NewCall(kind: Choice): Call {
    Call(kind, false, false, [], [], [], [], [])
  }

  /** What is known of the call after a step of its thread from pc, with wait set ws, in which `lost` have left the wait
      set and `raised` have been posted. */
  function Noted(call: Call, pc: Pc, c: Choice, ws: seq<nat>, lost: seq<nat>, raised: seq<nat>): Call {
    call.(
      sized := if pc.OneSize? || pc.SomeSize? || pc.AllSize? then ws != [] else call.sized,
      listed := call.listed || pc.OnePop? || pc.SomeBegin? || pc.AllFlush?,
      found := if pc.OnePop? || pc.SomeBegin? || pc.AllFlush? then ws else call.found,
      asked := if pc.SomePick? then call.asked + [pc.x] else call.asked,
      yes := if pc.SomePick? && c == Pred(true) then call.yes + [pc.x] else call.yes,
      taken := call.taken + lost,
      posted := call.posted + raised)
  }

  function CallAfter(call: Call, s: State, r: State, u: nat, c: Choice): Call
    requires u < |s.pcs| && u < |r.pcs| && |s.sema| == |r.sema|
  {
    if s.pcs[u].Idle? then if r.pcs[u].Idle? then call else NewCall(c)
    else Noted(call, s.pcs[u], c, s.waitset, Lost(s.waitset, r.waitset), Raised(s.sema, r.sema))
  }

  /** The latest call of thread u after these moves. */
  ghost function LatestCall(n: nat, moves: seq<Move>, u: nat): Call
    requires u < n
  {
    if moves == [] then NewCall(Prepare)
    else
      var was, m := moves[..|moves| - 1], moves[|moves| - 1];
      if m.t == u then CallAfter(LatestCall(n, was, u), After(n, was), After(n, moves), u, m.c)
      else LatestCall(n, was, u)
  }

  // ---- lists

  lemma {:induction false} LostNone(ws: seq<nat>, now: seq<nat>)
    requires forall x :: x in ws ==> x in now
    ensures Lost(ws, now) == []
  {
    if ws != [] {
      assert ws[0] in ws;
      LostNone(ws[1..], now);
    }
  }

  lemma {:induction false} LostAll(ws: seq<nat>)
    ensures Lost(ws, []) == ws
  {
    if ws != [] {
      LostAll(ws[1..]);
    }
  }

  lemma {:induction false} LostOne(ws: seq<nat>, now: seq<nat>, i: nat)
    requires Distinct(ws) && i < |ws| && forall x :: x in ws ==> (x in now <==> x != ws[i])
    ensures Lost(ws, now) == [ws[i]]
  {
    assert ws[0] in ws;
    if i == 0 {
      forall x | x in ws[1..]
        ensures x in now
      {
        assert x in ws;
        var k :| 0 <= k < |ws[1..]| && ws[1..][k] == x;
        assert ws[0] != ws[k + 1];
      }
      LostNone(ws[1..], now);
    } else {
      assert ws[0] != ws[i];
      LostOne(ws[1..], now, i - 1);
    }
  }

  lemma {:induction false} RaisedNone(a: seq<nat>)
    ensures Raised(a, a) == []
  {
    if a != [] {
      RaisedNone(a[..|a| - 1]);
    }
  }

  lemma {:induction false} RaisedLess(a: seq<nat>, x: nat)
    requires x < |a| && a[x] > 0
    ensures Raised(a, a[x := a[x] - 1]) == []
  {
    var k := |a| - 1;
    if x < k {
      RaisedLess(a[..k], x);
      assert a[x := a[x] - 1][..k] == a[..k][x := a[x] - 1];
    } else {
      RaisedNone(a[..k]);
      assert a[x := a[x] - 1][..k] == a[..k];
    }
  }

  lemma {:induction false} RaisedOne(a: seq<nat>, x: nat)
    requires x < |a|
    ensures Raised(a, a[x := a[x] + 1]) == [x]
  {
    var k := |a| - 1;
    if x < k {
      RaisedOne(a[..k], x);
      assert a[x := a[x] + 1][..k] == a[..k][x := a[x] + 1];
    } else {
      RaisedNone(a[..k]);
      assert a[x := a[x] + 1][..k] == a[..k];
    }
  }

  lemma {:induction false} ReversedMore(s: seq<nat>, x: nat)
    ensures Reversed(s + [x]) == [x] + Reversed(s)
  {
    if s != [] {
      assert (s + [x])[1..] == s[1..] + [x];
      ReversedMore(s[1..], x);
    } else {
      assert s + [x] == [x];
    }
  }

  // ---- what a call has done so far

  predicate Started(call: Call, kind: Choice, sized: bool) {
    call == NewCall(kind).(sized := sized)
  }

  /** A notify in its loop: so far asked, rest still to come, temp its own list. */
  predicate Asking(call: Call, rest: seq<nat>, temp: seq<nat>) {
    && call.kind == NotifySome && call.sized && call.listed && call.posted == []
    && call.found == call.asked + rest && call.taken == call.yes && temp == Reversed(call.yes)
  }

  predicate Flushed(call: Call, temp: seq<nat>) {
    call.kind == NotifyAll && call.sized && call.listed && call.posted == [] && call.found == call.taken == temp
  }

  /** A call with its own list: rest is still to be posted. */
  predicate Owing(call: Call, rest: seq<nat>) {
    && call.sized && call.listed
    && (|| (call.kind == NotifySome && call.found == call.asked && call.taken == call.yes
            && call.posted + rest == Reversed(call.yes))
        || (call.kind == NotifyAll && call.found == call.taken && call.posted + rest == call.found))
  }

  /** notify_one: it has taken the first and still owes it the post. */
  predicate OweOne(call: Call, x: nat) {
    && call.kind == NotifyOne && call.sized && call.listed && call.found != [] && call.found[0] == x
    && call.taken == [x] && call.posted == []
  }

  /** The call is over. */
  predicate Finished(call: Call) {
    && (call.kind.NotifyOne? || call.kind.NotifySome? || call.kind.NotifyAll? ==>
          (if call.sized then call.listed else call.taken == call.posted == []))
    && (call.kind.NotifyOne? && call.sized ==> call.posted == call.taken == Front(call.found))
    && (call.kind.NotifySome? && call.sized ==>
          call.asked == call.found && call.taken == call.yes && call.posted == Reversed(call.yes))
    && (call.kind.NotifyAll? && call.sized ==> call.taken == call.posted == call.found)
  }

  function Front(s: seq<nat>): seq<nat> {
    if s == [] then [] else [s[0]]
  }

  predicate IsNotify(kind: Choice) {
    kind.NotifyOne? || kind.NotifySome? || kind.NotifyAll?
  }

  predicate CallOk(pc: Pc, call: Call) {
    match pc
    case Idle => Finished(call)
    case OneSize => Started(call, NotifyOne, false)
    case OneLock => Started(call, NotifyOne, true)
    case OnePop => Started(call, NotifyOne, true)
    case OneNone => call == NewCall(NotifyOne).(sized := true, listed := true)
    case OneClear(x) => OweOne(call, x)
    case OneUnlock(x) => OweOne(call, x)
    case OnePost(x) => OweOne(call, x)
    case SomeSize => Started(call, NotifySome, false)
    case SomeInit => Started(call, NotifySome, true)
    case SomeLock => Started(call, NotifySome, true)
    case SomeBegin => Started(call, NotifySome, true)
    case SomeScan(_, rest, temp) => Asking(call, rest, temp)
    case SomePick(x, _, rest, temp) => Asking(call, [x] + rest, temp)
    case SomePush(x, _, rest, temp) => Asking(call, rest, [x] + temp)
    case SomeClear(_, _, rest, temp) => Asking(call, rest, temp)
    case AllSize => Started(call, NotifyAll, false)
    case AllInit => Started(call, NotifyAll, true)
    case AllLock => Started(call, NotifyAll, true)
    case AllFlush => Started(call, NotifyAll, true)
    case AllBegin(temp) => Flushed(call, temp)
    case AllTest(_, _, temp) => Flushed(call, temp)
    case AllClear(_, _, temp) => Flushed(call, temp)
    case AllNext(_, _, temp) => Flushed(call, temp)
    case Unlock(temp) => Owing(call, temp) && call.posted == []
    case PostBegin(temp) => Owing(call, temp) && call.posted == []
    case PostTest(_, rest) => Owing(call, rest)
    case PostNode(_, _, rest) => Owing(call, rest)
    case _ => !IsNotify(call.kind)
  }

  // ---- the steps

  /** What a step of u keeps: what is known of the call fits the place where u is. */
  ghost predicate CallKept(call: Call, s: State, u: nat, c: Choice) {
    && Shaped(s) && u < |s.pcs| && Shaped(Step(s, u, c))
    && CallOk(Step(s, u, c).pcs[u], CallAfter(call, s, Step(s, u, c), u, c))
  }

  /** u's step leads to pc; `lost` leave the wait set and `raised` are posted. */
  ghost predicate StepsTo(s: State, u: nat, c: Choice, pc: Pc, lost: seq<nat>, raised: seq<nat>) {
    && Shaped(s) && u < |s.pcs| && Shaped(Step(s, u, c)) && Step(s, u, c).pcs[u] == pc
    && Lost(s.waitset, Step(s, u, c).waitset) == lost && Raised(s.sema, Step(s, u, c).sema) == raised
  }

  lemma Keeps(call: Call, s: State, u: nat, c: Choice, pc: Pc, lost: seq<nat>, raised: seq<nat>)
    requires StepsTo(s, u, c, pc, lost, raised) && !s.pcs[u].Idle?
    requires CallOk(pc, Noted(call, s.pcs[u], c, s.waitset, lost, raised))
    ensures CallKept(call, s, u, c)
  {
    hide Step, CallOk, Noted, Lost, Raised;
  }

  /** Lists and permits are as before. */
  lemma QuietStep(s: State, u: nat, c: Choice, pc: Pc)
    requires Shaped(s) && u < |s.pcs| && Shaped(Step(s, u, c)) && Step(s, u, c).pcs[u] == pc
    requires Step(s, u, c).waitset == s.waitset && Step(s, u, c).sema == s.sema
    ensures StepsTo(s, u, c, pc, [], [])
  {
    LostNone(s.waitset, s.waitset);
    RaisedNone(s.sema);
    hide Step, Lost, Raised;
  }

  lemma SizeCall(call: Call, s: State, u: nat, c: Choice)
    requires Shaped(s) && Chains(s) && u < |s.pcs| && CallOk(s.pcs[u], call)
    requires s.pcs[u].OneSize? || s.pcs[u].SomeSize? || s.pcs[u].AllSize?
    ensures CallKept(call, s, u, c)
  {
    ChainsWhole(s);
    var pc := if s.size == 0 then Idle else
              if s.pcs[u].OneSize? then OneLock else if s.pcs[u].SomeSize? then SomeInit else AllInit;
    QuietStep(s, u, c, pc);
    SizeNoted(call, s.pcs[u], c, s.waitset, pc);
    hide Step, Chains, CallOk, Noted;
    Keeps(call, s, u, c, pc, [], []);
  }

  lemma SizeNoted(call: Call, pc: Pc, c: Choice, ws: seq<nat>, next: Pc)
    requires (pc.OneSize? || pc.SomeSize? || pc.AllSize?) && CallOk(pc, call)
    requires next ==
               if ws == [] then Idle else if pc.OneSize? then OneLock else if pc.SomeSize? then SomeInit else AllInit
    ensures CallOk(next, Noted(call, pc, c, ws, [], []))
  {
  }

  /** Where the steps on the way to the list lead. */
  function AfterLock(pc: Pc): Pc {
    match pc
    case OneLock => OnePop
    case OneNone => Idle
    case OneClear(x) => OneUnlock(x)
    case OneUnlock(x) => OnePost(x)
    case SomeInit => SomeLock
    case SomeLock => SomeBegin
    case AllInit => AllLock
    case AllLock => AllFlush
    case _ => pc
  }

  predicate OnTheWay(pc: Pc) {
    || pc.OneLock? || pc.OneNone? || pc.OneClear? || pc.OneUnlock? || pc.SomeInit? || pc.SomeLock? || pc.AllInit?
    || pc.AllLock?
  }

  lemma LockNoted(call: Call, pc: Pc, c: Choice, ws: seq<nat>)
    requires OnTheWay(pc) && CallOk(pc, call)
    ensures CallOk(AfterLock(pc), Noted(call, pc, c, ws, [], [])) && CallOk(pc, Noted(call, pc, c, ws, [], []))
  {
  }

  lemma LockSteps(s: State, u: nat, c: Choice)
    requires Shaped(s) && u < |s.pcs| && OnTheWay(s.pcs[u]) && !s.fault && !Step(s, u, c).fault
    ensures var r := Step(s, u, c);
            && Shaped(r) && r.waitset == s.waitset && r.sema == s.sema
            && (r.pcs[u] == AfterLock(s.pcs[u]) || r.pcs[u] == s.pcs[u])
  {
    hide ResetLinks;
  }

  lemma LockCall(call: Call, s: State, u: nat, c: Choice)
    requires Shaped(s) && u < |s.pcs| && OnTheWay(s.pcs[u]) && CallOk(s.pcs[u], call) && !s.fault
             && !Step(s, u, c).fault
    ensures CallKept(call, s, u, c)
  {
    LockSteps(s, u, c);
    LockNoted(call, s.pcs[u], c, s.waitset);
    assert !s.pcs[u].Idle?;
    var pc := Step(s, u, c).pcs[u];
    hide Step, CallOk, Noted, OnTheWay, AfterLock;
    QuietStep(s, u, c, pc);
    Keeps(call, s, u, c, pc, [], []);
  }

  /** Node x leaves the wait set. */
  lemma TakenStep(s: State, u: nat, c: Choice, m: State, x: nat, p: Spot)
    requires Inv(s) && Shaped(m) && m.waitset == s.waitset && x in s.waitset && x < |m.spot| && m.sema == s.sema
    requires u < |s.pcs| == |m.pcs| && Shaped(s) && Step(s, u, c) == TakeOut(m, x, p)
    ensures StepsTo(s, u, c, m.pcs[u], [x], [])
  {
    var k := Index(s.waitset, x);
    assert Distinct(s.waitset);
    LostOne(s.waitset, Without(s.waitset, k), k);
    RaisedNone(s.sema);
    hide Step, Lost, Raised, Inv, RemoveLinks, Index;
  }

  lemma PopNoted(call: Call, c: Choice, ws: seq<nat>)
    requires CallOk(OnePop, call)
    ensures ws == [] ==> CallOk(OneNone, Noted(call, OnePop, c, ws, [], []))
    ensures ws != [] ==> CallOk(OneClear(ws[0]), Noted(call, OnePop, c, ws, [ws[0]], []))
  {
  }

  lemma PopNone(s: State, u: nat, c: Choice)
    requires Shaped(s) && u < |s.pcs| && s.pcs[u].OnePop? && s.size == 0
    ensures Step(s, u, c) == Go(s, u, OneNone)
  {
  }

  lemma PopCall(call: Call, s: State, u: nat, c: Choice)
    requires Inv(s) && Chains(s) && u < |s.pcs| && s.pcs[u].OnePop? && CallOk(s.pcs[u], call)
    ensures CallKept(call, s, u, c)
  {
    Basics(s);
    ChainsWhole(s);
    PopNoted(call, c, s.waitset);
    hide Step, Chains, Inv, CallOk, Noted, TakeOut;
    if s.size == 0 {
      PopNone(s, u, c);
      QuietStep(s, u, c, OneNone);
      Keeps(call, s, u, c, OneNone, [], []);
    } else {
      PopIs(s, u, c);
      var x := s.waitset[0];
      WaiterWaits(s, x);
      TakenStep(s, u, c, Go(s, u, OneClear(x)), x, OwedBy(u));
      Keeps(call, s, u, c, OneClear(x), [x], []);
    }
  }

  // ---- notify

  lemma BeginNoted(call: Call, c: Choice, ws: seq<nat>, p: int)
    requires CallOk(SomeBegin, call)
    ensures CallOk(SomeScan(p, ws, []), Noted(call, SomeBegin, c, ws, [], []))
  {
  }

  lemma SomeBeginCall(call: Call, s: State, u: nat, c: Choice)
    requires Shaped(s) && u < |s.pcs| && s.pcs[u].SomeBegin? && CallOk(s.pcs[u], call)
    ensures CallKept(call, s, u, c)
  {
    var p := Next(s, WsHead(|s.pcs|));
    var pc := SomeScan(p, s.waitset, []);
    assert Step(s, u, c) == Go(s, u, pc);
    BeginNoted(call, c, s.waitset, p);
    hide Step, CallOk, Noted;
    QuietStep(s, u, c, pc);
    Keeps(call, s, u, c, pc, [], []);
  }

  lemma ScanNoted(call: Call, p: int, rest: seq<nat>, temp: seq<nat>, c: Choice, ws: seq<nat>, nx: int)
    requires CallOk(SomeScan(p, rest, temp), call)
    ensures rest == [] ==> CallOk(Unlock(temp), Noted(call, SomeScan(p, rest, temp), c, ws, [], []))
    ensures rest != [] ==>
              CallOk(SomePick(rest[0], nx, rest[1..], temp), Noted(call, SomeScan(p, rest, temp), c, ws, [], []))
  {
    assert rest != [] ==> [rest[0]] + rest[1..] == rest;
    assert call.asked + [] == call.asked && [] + temp == temp;
  }

  lemma ScanCall(call: Call, s: State, u: nat, c: Choice)
    requires Inv(s) && Chains(s) && u < |s.pcs| && s.pcs[u].SomeScan? && CallOk(s.pcs[u], call)
    ensures CallKept(call, s, u, c)
  {
    Basics(s);
    ScanStep(s, u, c);
    ScanIs(s, u);
    var (p, rest, temp) := (s.pcs[u].p, s.pcs[u].rest, s.pcs[u].temp);
    var nx := if rest == [] then 0 else First(rest[1..], WsTail(|s.pcs|));
    ScanNoted(call, p, rest, temp, c, s.waitset, nx);
    var pc := if rest == [] then Unlock(temp) else SomePick(rest[0], nx, rest[1..], temp);
    assert Step(s, u, c) == Go(s, u, pc);
    hide Step, Chains, Inv, Scan, CallOk, Noted;
    QuietStep(s, u, c, pc);
    Keeps(call, s, u, c, pc, [], []);
  }

  lemma PickNoted(call: Call, x: nat, nx: int, rest: seq<nat>, temp: seq<nat>, c: Choice, ws: seq<nat>)
    requires CallOk(SomePick(x, nx, rest, temp), call)
    ensures c == Pred(true) ==>
              CallOk(SomePush(x, nx, rest, temp), Noted(call, SomePick(x, nx, rest, temp), c, ws, [x], []))
    ensures c != Pred(true) ==>
              CallOk(SomeScan(nx, rest, temp), Noted(call, SomePick(x, nx, rest, temp), c, ws, [], []))
  {
    assert call.asked + ([x] + rest) == (call.asked + [x]) + rest;
    ReversedMore(call.yes, x);
    hide Reversed;
  }

  lemma PickIs(s: State, u: nat, c: Choice)
    requires Shaped(s) && u < |s.pcs| && s.pcs[u].SomePick?
    ensures var (x, nx) := (s.pcs[u].x, s.pcs[u].nx);
            var (rest, temp) := (s.pcs[u].rest, s.pcs[u].temp);
            Step(s, u, c) == if c == Pred(true) then TakeOut(Go(s, u, SomePush(x, nx, rest, temp)), x, OwedBy(u))
                             else Go(s, u, SomeScan(nx, rest, temp))
  {
    hide TakeOut;
  }

  lemma PickCall(call: Call, s: State, u: nat, c: Choice)
    requires Inv(s) && u < |s.pcs| && s.pcs[u].SomePick? && CallOk(s.pcs[u], call)
    ensures CallKept(call, s, u, c)
  {
    Basics(s);
    WaiterOf(s, u);
    var (x, nx) := (s.pcs[u].x, s.pcs[u].nx);
    var (rest, temp) := (s.pcs[u].rest, s.pcs[u].temp);
    assert x in ToVisit(s.pcs[u]);
    assert x in s.waitset;
    hide Inv, WaiterInv, NotifierInv, ToVisit, CallOk, Noted, TakeOut, Step;
    WaiterWaits(s, x);
    PickNoted(call, x, nx, rest, temp, c, s.waitset);
    PickIs(s, u, c);
    if c == Pred(true) {
      TakenStep(s, u, c, Go(s, u, SomePush(x, nx, rest, temp)), x, OwedBy(u));
      Keeps(call, s, u, c, SomePush(x, nx, rest, temp), [x], []);
    } else {
      QuietStep(s, u, c, SomeScan(nx, rest, temp));
      Keeps(call, s, u, c, SomeScan(nx, rest, temp), [], []);
    }
  }

  lemma SomeListNoted(call: Call, pc: Pc, c: Choice, ws: seq<nat>)
    requires (pc.SomePush? || pc.SomeClear?) && CallOk(pc, call)
    ensures var next := if pc.SomePush? then SomeClear(pc.x, pc.nx, pc.rest, [pc.x] + pc.temp)
                        else SomeScan(pc.nx, pc.rest, pc.temp);
            CallOk(next, Noted(call, pc, c, ws, [], []))
  {
  }

  lemma SomeListCall(call: Call, s: State, u: nat, c: Choice)
    requires Shaped(s) && u < |s.pcs| && (s.pcs[u].SomePush? || s.pcs[u].SomeClear?) && CallOk(s.pcs[u], call)
    requires !s.fault && !Step(s, u, c).fault
    ensures CallKept(call, s, u, c)
  {
    var r := Step(s, u, c);
    var pc := s.pcs[u];
    var next := if pc.SomePush? then SomeClear(pc.x, pc.nx, pc.rest, [pc.x] + pc.temp)
                else SomeScan(pc.nx, pc.rest, pc.temp);
    assert Shaped(r) && r.waitset == s.waitset && r.sema == s.sema && r.pcs[u] == next by {
      hide PushLinks;
    }
    SomeListNoted(call, pc, c, s.waitset);
    hide Step, CallOk, Noted;
    QuietStep(s, u, c, next);
    Keeps(call, s, u, c, next, [], []);
  }

  // ---- notify_all

  lemma FlushNoted(call: Call, c: Choice, ws: seq<nat>)
    requires CallOk(AllFlush, call)
    ensures CallOk(AllBegin(ws), Noted(call, AllFlush, c, ws, ws, []))
  {
  }

  lemma FlushIs(s: State, u: nat, c: Choice)
    requires Shaped(s) && u < |s.pcs| && s.pcs[u].AllFlush?
    ensures Step(s, u, c) == FlushAll(s, u)
  {
    hide FlushAll;
  }

  lemma FlushCall(call: Call, s: State, u: nat, c: Choice)
    requires Shaped(s) && u < |s.pcs| && s.pcs[u].AllFlush? && CallOk(s.pcs[u], call)
    ensures CallKept(call, s, u, c)
  {
    FlushIs(s, u, c);
    FlushShape(s, u);
    LostAll(s.waitset);
    RaisedNone(s.sema);
    FlushNoted(call, c, s.waitset);
    hide Step, FlushAll, Lost, Raised, CallOk, Noted;
    Keeps(call, s, u, c, AllBegin(s.waitset), s.waitset, []);
  }

  predicate InAll(pc: Pc) {
    pc.AllBegin? || pc.AllTest? || pc.AllClear? || pc.AllNext?
  }

  lemma AllMeans(pc: Pc, call: Call)
    requires InAll(pc)
    ensures CallOk(pc, call) <==> Flushed(call, pc.temp)
  {
  }

  lemma AllNoted(call: Call, pc: Pc, c: Choice, ws: seq<nat>, next: Pc)
    requires InAll(pc) && CallOk(pc, call) && (InAll(next) || next.Unlock?) && next.temp == pc.temp
    ensures CallOk(next, Noted(call, pc, c, ws, [], []))
  {
    var after := Noted(call, pc, c, ws, [], []);
    AllMeans(pc, call);
    assert Flushed(after, pc.temp) by {
      hide CallOk;
    }
    if next.Unlock? {
      assert [] + pc.temp == pc.temp;
    } else {
      AllMeans(next, after);
      hide CallOk, Noted;
    }
  }

  lemma AllSteps(s: State, u: nat, c: Choice)
    requires Inv(s) && Chains(s) && u < |s.pcs| && InAll(s.pcs[u])
    ensures var r := Step(s, u, c);
            && Shaped(s) && Shaped(r) && r.waitset == s.waitset && r.sema == s.sema
            && (InAll(r.pcs[u]) || r.pcs[u].Unlock?) && r.pcs[u].temp == s.pcs[u].temp
  {
    Basics(s);
    if s.pcs[u].AllTest? {
      AllTestIs(s, u, c);
      hide Inv, Chains, Step;
    } else if s.pcs[u].AllClear? {
      AllClearIs(s, u, c);
      hide Inv, Chains, Step;
    } else {
      hide Inv, Chains;
    }
  }

  lemma AllCall(call: Call, s: State, u: nat, c: Choice)
    requires Inv(s) && Chains(s) && u < |s.pcs| && InAll(s.pcs[u]) && CallOk(s.pcs[u], call)
    ensures CallKept(call, s, u, c)
  {
    AllSteps(s, u, c);
    var next := Step(s, u, c).pcs[u];
    AllNoted(call, s.pcs[u], c, s.waitset, next);
    hide Step, Chains, Inv, CallOk, Noted;
    QuietStep(s, u, c, next);
    Keeps(call, s, u, c, next, [], []);
  }

  // ---- the posts

  lemma UnlockNoted(call: Call, pc: Pc, c: Choice, ws: seq<nat>, p: int)
    requires (pc.Unlock? || pc.PostBegin?) && CallOk(pc, call)
    ensures CallOk(if pc.Unlock? then PostBegin(pc.temp) else PostTest(p, pc.temp), Noted(call, pc, c, ws, [], []))
  {
  }

  lemma UnlockCall(call: Call, s: State, u: nat, c: Choice)
    requires Shaped(s) && u < |s.pcs| && CallOk(s.pcs[u], call) && (s.pcs[u].Unlock? || s.pcs[u].PostBegin?)
    ensures CallKept(call, s, u, c)
  {
    var pc, p := s.pcs[u], Next(s, TempHead(|s.pcs|, u));
    var next := if pc.Unlock? then PostBegin(pc.temp) else PostTest(p, pc.temp);
    var r := Step(s, u, c);
    assert Shaped(r) && r.waitset == s.waitset && r.sema == s.sema && r.pcs[u] == next;
    UnlockNoted(call, pc, c, s.waitset, p);
    hide Step, CallOk, Noted;
    QuietStep(s, u, c, next);
    Keeps(call, s, u, c, next, [], []);
  }

  lemma PostTestNoted(call: Call, p: int, rest: seq<nat>, c: Choice, ws: seq<nat>, x: nat, nx: int)
    requires CallOk(PostTest(p, rest), call)
    ensures rest == [] ==> CallOk(Idle, Noted(call, PostTest(p, rest), c, ws, [], []))
    ensures rest != [] ==> CallOk(PostNode(x, nx, rest), Noted(call, PostTest(p, rest), c, ws, [], []))
  {
    assert call.posted + [] == call.posted;
  }

  lemma PostTestCall(call: Call, s: State, u: nat, c: Choice)
    requires Shaped(s) && Chains(s) && u < |s.pcs| && CallOk(s.pcs[u], call) && s.pcs[u].PostTest?
    ensures CallKept(call, s, u, c)
  {
    PostTestIs(s, u, c);
    var (p, rest) := (s.pcs[u].p, s.pcs[u].rest);
    var nx := if rest == [] then 0 else First(rest[1..], TempTail(|s.pcs|, u));
    var pc := if rest == [] then Idle else PostNode(rest[0], nx, rest);
    assert Step(s, u, c) == Go(s, u, pc);
    PostTestNoted(call, p, rest, c, s.waitset, if rest == [] then 0 else rest[0], nx);
    hide Step, Chains, CallOk, Noted;
    QuietStep(s, u, c, pc);
    Keeps(call, s, u, c, pc, [], []);
  }

  /** Thread x is posted. */
  lemma PostedStep(s: State, u: nat, c: Choice, x: nat, pc: Pc)
    requires Shaped(s) && u < |s.pcs| && x < |s.sema| && Step(s, u, c) == Go(PostTo(s, x), u, pc)
    ensures StepsTo(s, u, c, pc, [], [x])
  {
    hide Lost, Raised, Step;
    PostedIs(s, u, x, pc);
    LostNone(s.waitset, s.waitset);
    RaisedOne(s.sema, x);
  }

  lemma PostedIs(s: State, u: nat, x: nat, pc: Pc)
    requires Shaped(s) && u < |s.pcs| && x < |s.sema|
    ensures var r := Go(PostTo(s, x), u, pc);
            Shaped(r) && r.waitset == s.waitset && r.sema == s.sema[x := s.sema[x] + 1] && r.pcs[u] == pc
  {
  }

  lemma OnePostNoted(call: Call, x: nat, c: Choice, ws: seq<nat>)
    requires CallOk(OnePost(x), call)
    ensures CallOk(Idle, Noted(call, OnePost(x), c, ws, [], [x]))
  {
  }

  lemma PostNodeNoted(call: Call, x: nat, nx: int, rest: seq<nat>, c: Choice, ws: seq<nat>)
    requires CallOk(PostNode(x, nx, rest), call) && rest != [] && rest == [x] + rest[1..]
    ensures CallOk(PostTest(nx, rest[1..]), Noted(call, PostNode(x, nx, rest), c, ws, [], [x]))
  {
    assert call.posted + rest == (call.posted + [x]) + rest[1..];
  }

  lemma PostNodeStep(s: State, u: nat, c: Choice)
    requires Shaped(s) && u < |s.pcs| && s.pcs[u].PostNode? && s.pcs[u].rest != []
    ensures Step(s, u, c) == Go(PostTo(s, s.pcs[u].x), u, PostTest(s.pcs[u].nx, s.pcs[u].rest[1..]))
  {
    hide PostTo;
  }

  lemma OnePostStep(s: State, u: nat, c: Choice)
    requires Shaped(s) && u < |s.pcs| && s.pcs[u].OnePost?
    ensures Step(s, u, c) == Go(PostTo(s, s.pcs[u].x), u, Idle)
  {
    hide PostTo;
  }

  lemma PostCall(call: Call, s: State, u: nat, c: Choice)
    requires Inv(s) && Chains(s) && u < |s.pcs| && CallOk(s.pcs[u], call) && (s.pcs[u].OnePost? || s.pcs[u].PostNode?)
    ensures CallKept(call, s, u, c)
  {
    Basics(s);
    WaiterOf(s, u);
    var x := s.pcs[u].x;
    if s.pcs[u].OnePost? {
      assert x in Pending(s.pcs[u]);
      hide Inv, Chains, WaiterInv, NotifierInv, PostTo, Step, Pending, CallOk, Noted;
      OnePostStep(s, u, c);
      PostedStep(s, u, c, x, Idle);
      OnePostNoted(call, x, c, s.waitset);
      Keeps(call, s, u, c, Idle, [], [x]);
    } else {
      PostNodeIs(s, u, c);
      var (nx, rest) := (s.pcs[u].nx, s.pcs[u].rest);
      assert x in Pending(s.pcs[u]);
      hide Inv, Chains, WaiterInv, NotifierInv, PostTo, Step, Pending, CallOk, Noted;
      PostNodeStep(s, u, c);
      PostedStep(s, u, c, x, PostTest(nx, rest[1..]));
      PostNodeNoted(call, x, nx, rest, c, s.waitset);
      Keeps(call, s, u, c, PostTest(nx, rest[1..]), [], [x]);
    }
  }

  // ---- waiters, and the beginning of a call

  lemma WaiterNext(s: State, u: nat, c: Choice)
    requires Shaped(s) && u < |s.pcs| && Waits(s.pcs[u]) && !s.pcs[u].Idle?
    ensures Waits(Step(s, u, c).pcs[u])
  {
    hide RemoveLinks, PushLinks, Index;
  }

  lemma WaitsNoted(call: Call, pc: Pc, next: Pc, c: Choice, ws: seq<nat>, lost: seq<nat>, raised: seq<nat>)
    requires Waits(pc) && !pc.Idle? && CallOk(pc, call) && Waits(next)
    ensures CallOk(next, Noted(call, pc, c, ws, lost, raised))
  {
    WaitsMeans(pc, call);
    WaitsMeans(next, Noted(call, pc, c, ws, lost, raised));
    hide CallOk, Waits;
  }

  lemma WaitsMeans(pc: Pc, call: Call)
    requires Waits(pc)
    ensures !IsNotify(call.kind) ==> CallOk(pc, call)
    ensures !pc.Idle? && CallOk(pc, call) ==> !IsNotify(call.kind)
  {
  }

  lemma WaiterCall(call: Call, s: State, u: nat, c: Choice)
    requires Inv(s) && Chains(s) && u < |s.pcs| && Waits(s.pcs[u]) && !s.pcs[u].Idle? && CallOk(s.pcs[u], call)
    ensures CallKept(call, s, u, c)
  {
    Basics(s);
    StepKeeps(s, u, c);
    var r := Step(s, u, c);
    Basics(r);
    WaiterNext(s, u, c);
    WaitsNoted(call, s.pcs[u], r.pcs[u], c, s.waitset, Lost(s.waitset, r.waitset), Raised(s.sema, r.sema));
    hide Inv, Chains, Step, CallOk, Noted, Lost, Raised, Waits;
    Keeps(call, s, u, c, r.pcs[u], Lost(s.waitset, r.waitset), Raised(s.sema, r.sema));
  }

  lemma BeginCall(call: Call, s: State, u: nat, c: Choice)
    requires Shaped(s) && u < |s.pcs| && s.pcs[u].Idle? && CallOk(s.pcs[u], call)
    ensures CallKept(call, s, u, c)
  {
    IdleStep(s, u, c);
    hide Step;
  }

  /** Every step of every thread: what is known of the call fits the place where the thread is. */
  lemma CallStep(call: Call, s: State, u: nat, c: Choice)
    requires Inv(s) && Chains(s) && u < |s.pcs| && CallOk(s.pcs[u], call)
    ensures CallKept(call, s, u, c)
  {
    Basics(s);
    StepKeeps(s, u, c);
    Basics(Step(s, u, c));
    var pc := s.pcs[u];
    hide Inv, Chains, Step, CallOk, CallKept;
    if pc.Idle? {
      BeginCall(call, s, u, c);
    } else if Waits(pc) {
      WaiterCall(call, s, u, c);
    } else if OnTheWay(pc) {
      LockCall(call, s, u, c);
    } else {
      ListCall(call, s, u, c);
    }
  }

  lemma ListCall(call: Call, s: State, u: nat, c: Choice)
    requires Inv(s) && Chains(s) && Shaped(s) && u < |s.pcs| && CallOk(s.pcs[u], call)
    requires !s.fault && !Step(s, u, c).fault
    requires !Waits(s.pcs[u]) && !OnTheWay(s.pcs[u])
    ensures CallKept(call, s, u, c)
  {
    hide Inv, Chains, Step, CallOk, CallKept;
    match s.pcs[u]
    case OneSize => SizeCall(call, s, u, c);
    case SomeSize => SizeCall(call, s, u, c);
    case AllSize => SizeCall(call, s, u, c);
    case OnePop => PopCall(call, s, u, c);
    case SomeBegin => SomeBeginCall(call, s, u, c);
    case SomeScan(_, _, _) => ScanCall(call, s, u, c);
    case SomePick(_, _, _, _) => PickCall(call, s, u, c);
    case SomePush(_, _, _, _) => SomeListCall(call, s, u, c);
    case SomeClear(_, _, _, _) => SomeListCall(call, s, u, c);
    case AllFlush => FlushCall(call, s, u, c);
    case Unlock(_) => UnlockCall(call, s, u, c);
    case PostBegin(_) => UnlockCall(call, s, u, c);
    case PostTest(_, _) => PostTestCall(call, s, u, c);
    case PostNode(_, _, _) => PostCall(call, s, u, c);
    case OnePost(_) => PostCall(call, s, u, c);
    case _ => AllCall(call, s, u, c);
  }

  // ---- over runs

  lemma {:induction false} CallsAlways(n: nat, moves: seq<Move>, u: nat)
    requires u < n
    ensures CallOk(After(n, moves).pcs[u], LatestCall(n, moves, u))
  {
    hide CallOk, CallAfter, Inv, Chains, Step;
    if moves == [] {
      StartCall(n, u);
    } else {
      var was, m := moves[..|moves| - 1], moves[|moves| - 1];
      CallsAlways(n, was, u);
      AfterStep(n, moves);
      var s := After(n, was);
      hide After;
      if m.t == u {
        CallStep(LatestCall(n, was, u), s, u, m.c);
      } else if m.t < n {
        OthersStay(s, m.t, m.c, u);
      }
    }
  }

  lemma StartCall(n: nat, u: nat)
    requires u < n
    ensures CallOk(After(n, []).pcs[u], NewCall(Prepare))
  {
    hide ResetLinks, Inv, Chains;
  }

  /** Main theorem: a notify_one that is over, and has found somebody at its size test, has looked at the list under the
      lock, has taken out the first thread that was there then, and nobody else, and has posted it, and nobody else; or
      the others had emptied the wait set before that, and it has done nothing. */
  lemma NotifyOneWakesFirst(n: nat, moves: seq<Move>, u: nat)
    requires u < n && After(n, moves).pcs[u].Idle? && LatestCall(n, moves, u).kind == NotifyOne
    ensures var call := LatestCall(n, moves, u);
            && (call.sized ==> call.listed && call.posted == call.taken == Front(call.found))
            && (!call.sized ==> call.posted == call.taken == [])
  {
    CallsAlways(n, moves, u);
    hide After, LatestCall;
  }

  /** Main theorem: a notify that is over, and has found somebody at its size test, has asked the predicate about
      every thread that was in the wait set when it got the lock, in order; it has taken out exactly those with the
      answer yes, and posted exactly them, the last one first. */
  lemma NotifyWakesThoseChosen(n: nat, moves: seq<Move>, u: nat)
    requires u < n && After(n, moves).pcs[u].Idle? && LatestCall(n, moves, u).kind == NotifySome
    ensures var call := LatestCall(n, moves, u);
            && (call.sized ==> call.listed && call.asked == call.found && call.taken == call.yes
                               && call.posted == Reversed(call.yes))
            && (!call.sized ==> call.posted == call.taken == [])
  {
    CallsAlways(n, moves, u);
    hide After, LatestCall;
  }

  /** Main theorem: a notify_all that is over, and has found somebody at its size test, has taken out and posted exactly
      those who were in the wait set when it got the lock, in order. */
  lemma NotifyAllWakesAll(n: nat, moves: seq<Move>, u: nat)
    requires u < n && After(n, moves).pcs[u].Idle? && LatestCall(n, moves, u).kind == NotifyAll
    ensures var call := LatestCall(n, moves, u);
            && (call.sized ==> call.listed && call.posted == call.taken == call.found)
            && (!call.sized ==> call.posted == call.taken == [])
  {
    CallsAlways(n, moves, u);
    hide After, LatestCall;
  }

  // ---- calls end

  /** How many steps of its own a thread is away at most from the end of its call; n threads in all. */
  function StepsLeft(pc: Pc, n: nat): nat {
    match pc
    case Idle => 0
    case PrepCheck => 7
    case PrepWait => 6
    case PrepMark => 5
    case PrepLock => 4
    case PrepPush => 3
    case PrepUnlock => 2
    case Prepared => 0
    case CommitLoad => 7
    case CommitWait => 1
    case CancelMark => 6
    case CancelLoad => 5
    case CancelLock => 4
    case CancelCheck => 3
    case CancelUnlock => 1
    case OneSize => 6
    case OneLock => 5
    case OnePop => 4
    case OneNone => 1
    case OneClear(_) => 3
    case OneUnlock(_) => 2
    case OnePost(_) => 1
    case SomeSize => 8 + 6 * n
    case SomeInit => 7 + 6 * n
    case SomeLock => 6 + 6 * n
    case SomeBegin => 5 + 6 * n
    case SomeScan(_, rest, temp) => 4 + 2 * |temp| + 6 * |rest|
    case SomePick(_, _, rest, temp) => 9 + 2 * |temp| + 6 * |rest|
    case SomePush(_, _, rest, temp) => 8 + 2 * |temp| + 6 * |rest|
    case SomeClear(_, _, rest, temp) => 5 + 2 * |temp| + 6 * |rest|
    case AllSize => 9 + 5 * n
    case AllInit => 8 + 5 * n
    case AllLock => 7 + 5 * n
    case AllFlush => 6 + 5 * n
    case AllBegin(temp) => 5 + 5 * |temp|
    case AllTest(_, rest, temp) => 4 + 2 * |temp| + 3 * |rest|
    case AllClear(_, rest, temp) => 3 + 2 * |temp| + 3 * |rest|
    case AllNext(_, rest, temp) => 5 + 2 * |temp| + 3 * |rest|
    case Unlock(temp) => 3 + 2 * |temp|
    case PostBegin(temp) => 2 + 2 * |temp|
    case PostTest(_, rest) => 1 + 2 * |rest|
    case PostNode(_, _, rest) => 2 * |rest|
  }

  /** The thread waits for the lock, or for its semaphore. */
  predicate Blocked(s: State, u: nat)
    requires Shaped(s) && u < |s.pcs|
  {
    var pc := s.pcs[u];
    || (s.lock != Nobody && (pc.PrepLock? || pc.CancelLock? || pc.OneLock? || pc.SomeLock? || pc.AllLock?))
    || (s.sema[u] == 0 && (pc.PrepWait? || pc.CommitWait?))
  }

  lemma WaiterMoves(s: State, u: nat, c: Choice)
    requires Shaped(s) && u < |s.pcs| && Waits(s.pcs[u]) && !s.pcs[u].Idle? && !s.pcs[u].Prepared? && !Blocked(s, u)
    requires !Step(s, u, c).fault && !s.fault
    ensures StepsLeft(Step(s, u, c).pcs[u], |s.pcs|) < StepsLeft(s.pcs[u], |s.pcs|)
  {
    hide RemoveLinks, PushLinks, Index;
  }

  lemma WayMoves(s: State, u: nat, c: Choice)
    requires Shaped(s) && u < |s.pcs| && !Blocked(s, u) && OnTheWay(s.pcs[u]) && !Step(s, u, c).fault && !s.fault
    ensures StepsLeft(Step(s, u, c).pcs[u], |s.pcs|) < StepsLeft(s.pcs[u], |s.pcs|)
  {
    assert Step(s, u, c).pcs[u] == AfterLock(s.pcs[u]) by {
      hide ResetLinks, StepsLeft;
    }
    hide Step;
  }

  lemma SizeMoves(s: State, u: nat, c: Choice)
    requires Shaped(s) && u < |s.pcs|
    requires var pc := s.pcs[u]; pc.OneSize? || pc.SomeSize? || pc.AllSize? || pc.OnePost?
    ensures StepsLeft(Step(s, u, c).pcs[u], |s.pcs|) < StepsLeft(s.pcs[u], |s.pcs|) || Step(s, u, c).fault
  {
  }

  lemma SomeMoves(s: State, u: nat, c: Choice)
    requires Inv(s) && Chains(s) && Shaped(s) && u < |s.pcs| && !Step(s, u, c).fault && !s.fault
    requires var pc := s.pcs[u]; pc.SomeBegin? || pc.SomeScan? || pc.SomePick? || pc.SomePush? || pc.SomeClear?
    ensures StepsLeft(Step(s, u, c).pcs[u], |s.pcs|) < StepsLeft(s.pcs[u], |s.pcs|)
  {
    AtMost(s.waitset, |s.pcs|);
    if s.pcs[u].SomeScan? {
      ScanStep(s, u, c);
      ScanIs(s, u);
      hide Inv, Chains, Step, Scan;
    } else {
      hide Inv, Chains, RemoveLinks, PushLinks, Index;
    }
  }

  lemma AllMoves(s: State, u: nat, c: Choice)
    requires Inv(s) && Chains(s) && Shaped(s) && u < |s.pcs|
    requires InAll(s.pcs[u])
    ensures StepsLeft(Step(s, u, c).pcs[u], |s.pcs|) < StepsLeft(s.pcs[u], |s.pcs|)
  {
    hide Inv, Chains, Step;
    if s.pcs[u].AllTest? {
      AllTestIs(s, u, c);
    } else if s.pcs[u].AllClear? {
      AllClearIs(s, u, c);
    } else {
      AllQuiet(s, u, c);
    }
  }

  lemma FlushMoves(s: State, u: nat, c: Choice)
    requires Inv(s) && Shaped(s) && u < |s.pcs| && s.pcs[u].AllFlush?
    ensures StepsLeft(Step(s, u, c).pcs[u], |s.pcs|) < StepsLeft(s.pcs[u], |s.pcs|)
  {
    AtMost(s.waitset, |s.pcs|);
    FlushIs(s, u, c);
    FlushShape(s, u);
    hide Inv, Step, FlushAll;
  }

  lemma AllQuiet(s: State, u: nat, c: Choice)
    requires Shaped(s) && u < |s.pcs| && (s.pcs[u].AllBegin? || s.pcs[u].AllNext?)
    ensures StepsLeft(Step(s, u, c).pcs[u], |s.pcs|) < StepsLeft(s.pcs[u], |s.pcs|)
  {
  }

  lemma PopMoves(s: State, u: nat, c: Choice)
    requires Inv(s) && Chains(s) && Shaped(s) && u < |s.pcs| && s.pcs[u].OnePop?
    ensures StepsLeft(Step(s, u, c).pcs[u], |s.pcs|) < StepsLeft(s.pcs[u], |s.pcs|)
  {
    hide Chains, Step, TakeOut;
    if s.size == 0 {
      PopNone(s, u, c);
    } else {
      PopIs(s, u, c);
      var x := s.waitset[0];
      WaiterWaits(s, x);
      TakenStep(s, u, c, Go(s, u, OneClear(x)), x, OwedBy(u));
    }
  }

  lemma PostMoves(s: State, u: nat, c: Choice)
    requires Inv(s) && Chains(s) && Shaped(s) && u < |s.pcs|
    requires var pc := s.pcs[u]; pc.Unlock? || pc.PostBegin? || pc.PostTest? || pc.PostNode?
    ensures StepsLeft(Step(s, u, c).pcs[u], |s.pcs|) < StepsLeft(s.pcs[u], |s.pcs|)
  {
    if s.pcs[u].PostTest? {
      PostTestIs(s, u, c);
      hide Inv, Chains, Step;
    } else if s.pcs[u].PostNode? {
      PostNodeIs(s, u, c);
      hide Inv, Chains, Step;
    } else {
      hide Inv, Chains;
    }
  }

  /** Main theorem: in every reachable state, every step of a thread inside a call brings the call nearer to its
      end, unless the thread waits for the lock or for its semaphore: a call takes at most 9 + 8n steps of its own
      beside these waits. */
  lemma CallsEnd(n: nat, moves: seq<Move>, u: nat, c: Choice)
    requires u < n
    ensures var s := After(n, moves);
            var pc, next := s.pcs[u], Step(s, u, c).pcs[u];
            && StepsLeft(pc, n) <= 9 + 8 * n
            && (!pc.Idle? && !pc.Prepared? && !Blocked(s, u) ==> StepsLeft(next, n) < StepsLeft(pc, n))
            && (pc.Idle? ==> next == match c
                                     case Prepare => PrepCheck
                                     case NotifyOne => OneSize
                                     case NotifySome => SomeSize
                                     case NotifyAll => AllSize
                                     case _ => Idle)
            && (pc.Prepared? ==>
                  next == if c == Commit then CommitLoad else if c == Cancel then CancelMark else Prepared)
  {
    var s := After(n, moves);
    hide After;
    Basics(s);
    StepKeeps(s, u, c);
    Basics(Step(s, u, c));
    LeftAtMost(s, u);
    var pc := s.pcs[u];
    if pc.Idle? || pc.Prepared? {
      hide Inv, Chains, StepsLeft;
    } else {
      hide Inv, Chains, Step, StepsLeft, Blocked;
      if Blocked(s, u) {
      } else if Waits(pc) {
        WaiterMoves(s, u, c);
      } else if OnTheWay(pc) {
        WayMoves(s, u, c);
      } else if pc.OneSize? || pc.SomeSize? || pc.AllSize? || pc.OnePost? {
        SizeMoves(s, u, c);
      } else if pc.OnePop? {
        PopMoves(s, u, c);
      } else if InAll(pc) {
        AllMoves(s, u, c);
      } else if pc.AllFlush? {
        FlushMoves(s, u, c);
      } else if pc.Unlock? || pc.PostBegin? || pc.PostTest? || pc.PostNode? {
        PostMoves(s, u, c);
      } else {
        SomeMoves(s, u, c);
      }
    }
  }

  lemma LeftAtMost(s: State, u: nat)
    requires Inv(s) && u < |s.pcs|
    ensures StepsLeft(s.pcs[u], |s.pcs|) <= 9 + 8 * |s.pcs|
  {
    var n, pc := |s.pcs|, s.pcs[u];
    WaiterOf(s, u);
    assert forall x :: x in Pending(pc) ==> x < n;
    assert forall x :: x in ToVisit(pc) ==> x in s.waitset;
    assert forall x :: x in s.waitset ==> x < n;
    hide Inv, WaiterInv;
    AtMost(Pending(pc), n);
    AtMost(ToVisit(pc), n);
    AtMost(ToClear(pc), n);
    hide Distinct;
  }

  // ---- waiting

  /** Main theorem: in every reachable state, a thread that has prepared to wait is in the wait set or has been notified
      since; nobody is left in the wait set who is not about to wait or to cancel. */
  lemma PreparedIsListed(n: nat, moves: seq<Move>, w: nat)
    requires w < n
    ensures var s := After(n, moves);
            var pc := s.pcs[w];
            && (pc.Prepared? ==> w in s.waitset || Notified(s, w))
            && (w in s.waitset ==>
                  || pc.PrepUnlock? || pc.Prepared? || pc.CommitLoad? || pc.CommitWait? || pc.CancelMark?
                  || pc.CancelLoad? || pc.CancelLock? || pc.CancelCheck?)
  {
    var s := After(n, moves);
    hide After;
    WaiterOf(s, w);
    hide Inv, Chains, NotifierInv, FlagOk, HasLock;
  }

  /** Thread w is blocked in commit_wait, or about to be. */
  predicate Committed(s: State, w: nat) {
    w < |s.pcs| && (s.pcs[w].CommitLoad? || s.pcs[w].CommitWait?) && w in s.waitset
  }

  lemma StaysCommitted(s: State, t: nat, c: Choice, w: nat)
    requires Inv(s) && Chains(s) && Shaped(s) && t < |s.pcs| && Committed(s, w)
    ensures !Leaves(s, Step(s, t, c), w) ==> Committed(Step(s, t, c), w)
    ensures Leaves(s, Step(s, t, c), w) ==> t < |Step(s, t, c).pcs| && Owes(Step(s, t, c).pcs[t], w)
  {
    LeavingStep(s, t, c, w);
    if t == w {
      WaiterWaits(s, w);
      CommitGoesOn(s, w, c);
    } else {
      OthersStay(s, t, c, w);
    }
    hide Inv, Chains, Step, Owes;
  }

  lemma CommitGoesOn(s: State, w: nat, c: Choice)
    requires Shaped(s) && Committed(s, w) && s.inWaitset[w] && s.sema[w] == 0
    ensures Step(s, w, c).pcs[w].CommitWait? && Step(s, w, c).waitset == s.waitset && |Step(s, w, c).pcs| == |s.pcs|
  {
  }

  /** Some move of more, after moves, is a notifier's and takes w out of the wait set, and that notifier then owes
      w a post. */
  ghost predicate NotifiedDuring(n: nat, moves: seq<Move>, more: seq<Move>, w: nat) {
    exists k: nat :: k < |more| && NotifiedAt(n, moves, more, k, w)
  }

  ghost predicate NotifiedAt(n: nat, moves: seq<Move>, more: seq<Move>, k: nat, w: nat)
    requires k < |more|
  {
    var s, r, m := After(n, moves + more[..k]), After(n, moves + more[..k + 1]), more[k];
    m.t < n && Leaves(s, r, w) && Owes(r.pcs[m.t], w)
  }

  lemma SameNotified(n: nat, moves: seq<Move>, more: seq<Move>, less: seq<Move>, j: nat, w: nat)
    requires j < |less| <= |more| && less[..j] == more[..j] && less[..j + 1] == more[..j + 1] && less[j] == more[j]
    ensures NotifiedAt(n, moves, less, j, w) <==> NotifiedAt(n, moves, more, j, w)
  {
    hide After, Leaves, Owes;
  }

  lemma {:induction false} CommittedUntil(n: nat, moves: seq<Move>, more: seq<Move>, w: nat)
    requires w < n && Committed(After(n, moves), w) && !NotifiedDuring(n, moves, more, w)
    ensures Committed(After(n, moves + more), w)
  {
    hide After, Committed, NotifiedAt, Leaves, Inv, Chains, Step, Owes;
    if more == [] {
      assert moves + more == moves;
    } else {
      var k := |more| - 1;
      var less, m := more[..k], more[k];
      forall j: nat | j < |less|
        ensures !NotifiedAt(n, moves, less, j, w)
      {
        assert less[..j] == more[..j] && less[..j + 1] == more[..j + 1];
        SameNotified(n, moves, more, less, j, w);
      }
      CommittedUntil(n, moves, less, w);
      var all := moves + more;
      assert all[..|all| - 1] == moves + less && all[|all| - 1] == m && more[..k + 1] == more;
      AfterStep(n, all);
      assert !NotifiedAt(n, moves, more, k, w);
      if m.t < n {
        StaysCommitted(After(n, moves + less), m.t, m.c, w);
        NotTakenAt(n, moves, more, k, w);
      }
    }
  }

  lemma NotTakenAt(n: nat, moves: seq<Move>, more: seq<Move>, k: nat, w: nat)
    requires k < |more| && more[k].t < n && !NotifiedAt(n, moves, more, k, w)
    ensures var s, r := After(n, moves + more[..k]), After(n, moves + more[..k + 1]);
            Leaves(s, r, w) ==> !Owes(r.pcs[more[k].t], w)
  {
    hide After, Owes, Leaves;
  }

  /** Main theorem: commit_wait really waits: a thread that commits while it is in the wait set does not return
      before some notifier has taken it out, which then owes it a post. */
  lemma WaitEndsByNotify(n: nat, moves: seq<Move>, more: seq<Move>, w: nat)
    requires w < n && After(n, moves).pcs[w].Prepared? && w in After(n, moves).waitset
    requires After(n, moves + [Move(w, Commit)] + more).pcs[w].Idle?
    ensures NotifiedDuring(n, moves + [Move(w, Commit)], more, w)
  {
    var s, begun := After(n, moves), moves + [Move(w, Commit)];
    assert begun[..|begun| - 1] == moves && begun[|begun| - 1] == Move(w, Commit);
    AfterStep(n, begun);
    CommitBegins(s, w);
    hide After, NotifiedDuring, Inv, Chains, Step;
    if !NotifiedDuring(n, begun, more, w) {
      CommittedUntil(n, begun, more, w);
      assert false;
    }
  }

  lemma CommitBegins(s: State, w: nat)
    requires Shaped(s) && w < |s.pcs| && s.pcs[w].Prepared? && w in s.waitset
    ensures Committed(Step(s, w, Commit), w)
  {
  }
}
