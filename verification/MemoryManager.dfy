/** The block-recycling memory manager: freed blocks go to a free list of their size, at once or after a
    ring of deferred frees has come around. */
module MemoryManager {

  /** Where a block is; the n-th deferred free (from 0) put it into the ring. */
  datatype Place = Live | Free | Deferred(n: nat)

  datatype Block = Block(size: nat, place: Place)

  /** All blocks ever obtained from the system, by base address, and the blocks deferred so far, in order. */
  datatype Books = Books(blocks: map<nat, Block>, deferred: seq<nat>)

  /** A block is given out: a free one of that size, or a new one. */
  predicate CanAlloc(k: Books, b: nat, size: nat) {
    b in k.blocks ==> k.blocks[b] == Block(size, Free)
  }

  predicate CanFree(k: Books, b: nat) {
    b in k.blocks && k.blocks[b].place == Live
  }

  function AfterAlloc(k: Books, b: nat, size: nat): Books {
    k.(blocks := k.blocks[b := Block(size, Live)])
  }

  function Move(blocks: map<nat, Block>, b: nat, place: Place): (r: map<nat, Block>)
    requires b in blocks
    ensures r.Keys == blocks.Keys && r[b] == Block(blocks[b].size, place)
            && forall x :: x in blocks && x != b ==> r[x] == blocks[x]
  {
    blocks[b := blocks[b].(place := place)]
  }

  /** A deferred free puts the block into the ring, and the block that came 63 deferred frees before it becomes free. */
  function AfterFree(k: Books, b: nat, defer: bool): Books
    requires b in k.blocks && Ring(k)
  {
    var n := |k.deferred|;
    if !defer then k.(blocks := Move(k.blocks, b, Free))
    else
      var blocks := Move(k.blocks, b, Deferred(n));
      Books(if n >= 63 then Move(blocks, k.deferred[n - 63], Free) else blocks, k.deferred + [b])
  }

  /** The ring holds the last 63 deferred blocks, and no others. */
  ghost predicate Ring(k: Books) {
    var n := |k.deferred|;
    && (forall i :: 0 <= i < n && i + 63 >= n ==>
          k.deferred[i] in k.blocks && k.blocks[k.deferred[i]].place == Deferred(i))
    && (forall b :: b in k.blocks && k.blocks[b].place.Deferred? ==>
          var i := k.blocks[b].place.n; i < n && i + 63 >= n && k.deferred[i] == b)
  }

  lemma RingAlloc(k: Books, b: nat, size: nat)
    requires Ring(k) && CanAlloc(k, b, size)
    ensures Ring(AfterAlloc(k, b, size))
  {
  }

  lemma RingFree(k: Books, b: nat, defer: bool)
    requires Ring(k) && CanFree(k, b)
    ensures Ring(AfterFree(k, b, defer))
  {
  }

  // ---- runs

  datatype Action = Alloc(b: nat, size: nat) | FreeIt(b: nat, defer: bool)

  predicate Enabled(k: Books, a: Action) {
    match a
    case Alloc(b, size) => CanAlloc(k, b, size)
    case FreeIt(b, _) => CanFree(k, b)
  }

  /** The books after one action; one that is not enabled leaves them alone. */
  ghost function Apply(k: Books, a: Action): (r: Books)
    requires Ring(k)
    ensures Ring(r)
  {
    if !Enabled(k, a) then k else
    match a
    case Alloc(b, size) => RingAlloc(k, b, size); AfterAlloc(k, b, size)
    case FreeIt(b, defer) => RingFree(k, b, defer); AfterFree(k, b, defer)
  }

  ghost function After(acts: seq<Action>): (k: Books)
    ensures Ring(k)
  {
    if acts == [] then Books(map[], []) else Apply(After(acts[..|acts| - 1]), acts[|acts| - 1])
  }

  ghost predicate Run(acts: seq<Action>) {
    acts == [] || (Run(acts[..|acts| - 1]) && Enabled(After(acts[..|acts| - 1]), acts[|acts| - 1]))
  }

  /** Deferred frees among the actions. */
  function Deferrals(acts: seq<Action>): nat {
    if acts == [] then 0
    else
      Deferrals(acts[..|acts| - 1]) + if acts[|acts| - 1].FreeIt? && acts[|acts| - 1].defer then 1 else 0
  }

  predicate Allocates(acts: seq<Action>, b: nat) {
    exists j :: 0 <= j < |acts| && acts[j].Alloc? && acts[j].b == b
  }

  /** d deferred frees after its own, block b waits in the ring, or is free if d >= 63. */
  ghost predicate Waits(k: Books, b: nat, d: nat) {
    && b in k.blocks && |k.deferred| >= d + 1
    && k.blocks[b].place == if d < 63 then Deferred(|k.deferred| - d - 1) else Free
  }

  lemma WaitsOn(k: Books, a: Action, b: nat, d: nat)
    requires Ring(k) && Enabled(k, a) && Waits(k, b, d) && !(a.Alloc? && a.b == b)
    ensures Waits(Apply(k, a), b, if a.FreeIt? && a.defer then d + 1 else d)
  {
  }

  lemma StartsWaiting(k: Books, b: nat)
    requires Ring(k) && Enabled(k, FreeIt(b, true))
    ensures Waits(Apply(k, FreeIt(b, true)), b, 0)
  {
  }

  /** Main theorem: after a deferred free of b, and until b is allocated again, b waits in the ring during the next 62
      deferred frees and is free from the 63rd on; so it cannot be given out before that. */
  lemma {:induction false} ReusableAfter63(acts: seq<Action>, b: nat, more: seq<Action>)
    requires Run(acts + [FreeIt(b, true)] + more)
    requires !Allocates(more, b)
    ensures var k := After(acts + [FreeIt(b, true)] + more);
            && b in k.blocks
            && |k.deferred| >= Deferrals(more) + 1
            && k.blocks[b].place == if Deferrals(more) < 63 then Deferred(|k.deferred| - Deferrals(more) - 1) else Free
    decreases |more|
  {
    hide Ring, Apply, Enabled;
    var all := acts + [FreeIt(b, true)] + more;
    if more == [] {
      assert all[..|all| - 1] == acts && all[|all| - 1] == FreeIt(b, true);
      StartsWaiting(After(acts), b);
    } else {
      var m := more[..|more| - 1];
      assert all[..|all| - 1] == acts + [FreeIt(b, true)] + m && all[|all| - 1] == more[|more| - 1];
      assert !Allocates(m, b);
      ReusableAfter63(acts, b, m);
      WaitsOn(After(all[..|all| - 1]), more[|more| - 1], b, Deferrals(m));
    }
  }

  /** A block in the ring is not given out: there are at least 63 deferred frees in between. */
  lemma NeverReusedEarly(acts: seq<Action>, b: nat, more: seq<Action>, size: nat)
    requires Run(acts + [FreeIt(b, true)] + more + [Alloc(b, size)]) && !Allocates(more, b)
    ensures Deferrals(more) >= 63
  {
    hide Ring, Apply;
    var all := acts + [FreeIt(b, true)] + more + [Alloc(b, size)];
    assert all[..|all| - 1] == acts + [FreeIt(b, true)] + more;
    ReusableAfter63(acts, b, more);
  }

  // ---- the object

  datatype Entry = Entry(size: nat, free: seq<nat>)

  /** User pointers lie this far behind the base of their block. */
  const ALIGNMENT: nat := 16

  /** The free lists hold the free blocks, each once, by size. */
  ghost predicate Cached(cache: seq<Entry>, blocks: map<nat, Block>) {
    && (forall i, j :: 0 <= i < j < |cache| ==> cache[i].size != cache[j].size)
    && (forall i, p :: 0 <= i < |cache| && 0 <= p < |cache[i].free| ==>
          cache[i].free[p] in blocks && blocks[cache[i].free[p]] == Block(cache[i].size, Free))
    && (forall i, p, q :: 0 <= i < |cache| && 0 <= p < q < |cache[i].free| ==> cache[i].free[p] != cache[i].free[q])
    && (forall b :: b in blocks && blocks[b].place == Free ==> exists i :: 0 <= i < |cache| && b in cache[i].free)
  }

  /** The live blocks are those in the map, by user pointer, and their headers hold their sizes. */
  ghost predicate Mapped(allocs: map<nat, nat>, headers: map<nat, nat>, blocks: map<nat, Block>) {
    && (forall p :: p in allocs ==>
          p >= ALIGNMENT && p - ALIGNMENT in blocks && blocks[p - ALIGNMENT] == Block(allocs[p], Live))
    && (forall b :: b in blocks && blocks[b].place == Live ==>
          b + ALIGNMENT in allocs && b in headers && headers[b] == blocks[b].size)
    && 0 !in blocks
  }

  /** The i-th deferred block has not been freed or given out again. */
  predicate StillIn(k: Books, i: nat) {
    i < |k.deferred| && k.deferred[i] in k.blocks && k.blocks[k.deferred[i]].place == Deferred(i)
  }

  /** The array is the ring of 64 slots: slot index % 64 is stale, the others hold the last 63 deferred blocks. */
  ghost predicate Slots(slots: seq<nat>, sizes: seq<nat>, k: Books) {
    var n := |k.deferred|;
    && |slots| == 64 == |sizes|
    && (forall i :: 0 <= i < n && i + 64 >= n ==> slots[i % 64] == k.deferred[i] != 0)
    && (forall i :: 0 <= i < n && i + 64 >= n && StillIn(k, i) ==> sizes[i % 64] == k.blocks[k.deferred[i]].size)
    && (forall x :: n <= x < 64 ==> slots[x] == 0)
  }

  lemma CachedOther(cache: seq<Entry>, blocks: map<nat, Block>, b: nat, block: Block)
    requires Cached(cache, blocks) && block.place != Free && (b in blocks ==> blocks[b].place != Free)
    ensures Cached(cache, blocks[b := block])
  {
  }

  lemma CachedPush(cache: seq<Entry>, blocks: map<nat, Block>, b: nat, i: nat)
    requires Cached(cache, blocks) && b in blocks && blocks[b].place != Free && i < |cache|
             && cache[i].size == blocks[b].size
    ensures Cached(cache[i := Entry(cache[i].size, cache[i].free + [b])], Move(blocks, b, Free))
  {
    var cache', blocks' := cache[i := Entry(cache[i].size, cache[i].free + [b])], Move(blocks, b, Free);
    forall x | x in blocks' && blocks'[x].place == Free
      ensures exists j :: 0 <= j < |cache'| && x in cache'[j].free
    {
      if x == b {
        assert x in cache'[i].free;
      } else {
        var j :| 0 <= j < |cache| && x in cache[j].free;
        assert x in cache'[j].free;
      }
    }
  }

  lemma CachedNew(cache: seq<Entry>, blocks: map<nat, Block>, b: nat)
    requires Cached(cache, blocks) && b in blocks && blocks[b].place != Free
             && forall i :: 0 <= i < |cache| ==> cache[i].size != blocks[b].size
    ensures Cached(cache + [Entry(blocks[b].size, [b])], Move(blocks, b, Free))
  {
    var cache', blocks' := cache + [Entry(blocks[b].size, [b])], Move(blocks, b, Free);
    forall x | x in blocks' && blocks'[x].place == Free
      ensures exists j :: 0 <= j < |cache'| && x in cache'[j].free
    {
      if x == b {
        assert x in cache'[|cache|].free;
      } else {
        var j :| 0 <= j < |cache| && x in cache[j].free;
        assert x in cache'[j].free;
      }
    }
  }

  lemma CachedPop(cache: seq<Entry>, blocks: map<nat, Block>, i: nat)
    requires Cached(cache, blocks) && i < |cache| && cache[i].free != []
    ensures var n := |cache[i].free| - 1;
            var b := cache[i].free[n];
            && b in blocks && blocks[b] == Block(cache[i].size, Free)
            && Cached(cache[i := Entry(cache[i].size, cache[i].free[..n])], blocks[b := Block(cache[i].size, Live)])
  {
    var n := |cache[i].free| - 1;
    var b := cache[i].free[n];
    var cache', blocks' := cache[i := Entry(cache[i].size, cache[i].free[..n])],
      blocks[b := Block(cache[i].size, Live)];
    assert cache[i].free == cache[i].free[..n] + [b];
    forall x | x in blocks' && blocks'[x].place == Free
      ensures exists j :: 0 <= j < |cache'| && x in cache'[j].free
    {
      var j :| 0 <= j < |cache| && x in cache[j].free;
      assert x in cache'[j].free;
    }
    forall j, p | 0 <= j < |cache'| && 0 <= p < |cache'[j].free|
      ensures cache'[j].free[p] in blocks' && blocks'[cache'[j].free[p]] == Block(cache'[j].size, Free)
    {
      assert cache'[j].free[p] == cache[j].free[p];
    }
  }

  /** No free list has a block of this size. */
  lemma NoneFree(cache: seq<Entry>, blocks: map<nat, Block>, size: nat)
    requires Cached(cache, blocks) && forall i :: 0 <= i < |cache| && cache[i].size == size ==> cache[i].free == []
    ensures forall b :: b in blocks ==> blocks[b] != Block(size, Free)
  {
    forall b | b in blocks
      ensures blocks[b] != Block(size, Free)
    {
      if blocks[b].place == Free {
        var i :| 0 <= i < |cache| && b in cache[i].free;
        var p :| 0 <= p < |cache[i].free| && cache[i].free[p] == b;
      }
    }
  }

  /** The block that leaves the ring: the slot after the new one holds it, or is still null. */
  lemma SlotsDefer(slots: seq<nat>, sizes: seq<nat>, k: Books, b: nat)
    requires Ring(k) && Slots(slots, sizes, k) && CanFree(k, b) && b != 0
    ensures var n := |k.deferred|;
            var slots', sizes' := slots[n % 64 := b], sizes[n % 64 := k.blocks[b].size];
            && (n >= 63 ==>
                  && slots'[(n + 1) % 64] == k.deferred[n - 63] != 0
                  && k.deferred[n - 63] in k.blocks && k.deferred[n - 63] != b
                  && k.blocks[k.deferred[n - 63]] == Block(sizes'[(n + 1) % 64], Deferred(n - 63)))
            && (n < 63 ==> slots'[(n + 1) % 64] == 0)
            && Slots(slots', sizes', AfterFree(k, b, true))
  {
    var n := |k.deferred|;
    if n >= 63 {
      assert (n - 63) % 64 == (n + 1) % 64;
      assert k.deferred[n - 63] in k.blocks;
    }
    var r := AfterFree(k, b, true);
    forall i | 0 <= i < n + 1 && i + 64 >= n + 1
      ensures i < n ==> i % 64 != n % 64
    {
    }
    hide Ring;
  }

  lemma SlotsAlloc(slots: seq<nat>, sizes: seq<nat>, k: Books, b: nat, size: nat)
    requires Ring(k) && Slots(slots, sizes, k) && CanAlloc(k, b, size)
    ensures Slots(slots, sizes, AfterAlloc(k, b, size))
  {
  }

  lemma MappedAlloc(allocs: map<nat, nat>, headers: map<nat, nat>, k: Books, b: nat, size: nat)
    requires Mapped(allocs, headers, k.blocks) && CanAlloc(k, b, size) && b != 0
    ensures b + ALIGNMENT !in allocs
    ensures Mapped(allocs[b + ALIGNMENT := size], headers[b := size], AfterAlloc(k, b, size).blocks)
  {
  }

  /** A live pointer leads to a live block whose header holds its size. */
  lemma MappedFind(allocs: map<nat, nat>, headers: map<nat, nat>, k: Books, pp: nat)
    requires Mapped(allocs, headers, k.blocks) && pp in allocs
    ensures pp >= ALIGNMENT && CanFree(k, pp - ALIGNMENT) && pp != ALIGNMENT
    ensures pp - ALIGNMENT in headers && headers[pp - ALIGNMENT] == k.blocks[pp - ALIGNMENT].size
  {
  }

  lemma MappedFree(allocs: map<nat, nat>, headers: map<nat, nat>, k: Books, pp: nat, defer: bool)
    requires Mapped(allocs, headers, k.blocks) && pp in allocs && Ring(k) && pp >= ALIGNMENT
             && CanFree(k, pp - ALIGNMENT)
    ensures Mapped(allocs - {pp}, headers, AfterFree(k, pp - ALIGNMENT, defer).blocks)
  {
    var n := |k.deferred|;
    if defer && n >= 63 {
      assert k.blocks[k.deferred[n - 63]].place == Deferred(n - 63);
    }
    hide Ring;
  }

  /** alloc gave out p: a free block of that size or the system's new one, never a live or deferred block. */
  ghost predicate Allocated(k: Books, allocs: map<nat, nat>, k': Books, allocs': map<nat, nat>, size: nat, system: nat,
      p: nat) {
    && p >= ALIGNMENT && CanAlloc(k, p - ALIGNMENT, size) && k' == AfterAlloc(k, p - ALIGNMENT, size)
    && p !in allocs && allocs' == allocs[p := size] && (p - ALIGNMENT in k.blocks || p - ALIGNMENT == system)
  }

  ghost predicate NothingToGive(k: Books, size: nat, system: nat) {
    system == 0 && forall b :: b in k.blocks ==> k.blocks[b] != Block(size, Free)
  }

  /** free took back the live block behind pp. */
  ghost predicate Freed(k: Books, allocs: map<nat, nat>, k': Books, allocs': map<nat, nat>, pp: nat, defer: bool) {
    && pp >= ALIGNMENT && CanFree(k, pp - ALIGNMENT) && Ring(k)
    && k' == AfterFree(k, pp - ALIGNMENT, defer) && allocs' == allocs - {pp}
  }

  lemma AllocatedIntro(k: Books, allocs: map<nat, nat>, size: nat, system: nat, pp: nat)
    requires CanAlloc(k, pp, size) && pp + ALIGNMENT !in allocs && (pp in k.blocks || pp == system)
    ensures Allocated(k, allocs, AfterAlloc(k, pp, size), allocs[pp + ALIGNMENT := size], size, system, pp + ALIGNMENT)
  {
  }

  lemma FreedIntro(k: Books, allocs: map<nat, nat>, pp: nat, defer: bool)
    requires pp >= ALIGNMENT && CanFree(k, pp - ALIGNMENT) && Ring(k)
    ensures Freed(k, allocs, AfterFree(k, pp - ALIGNMENT, defer), allocs - {pp}, pp, defer)
  {
  }

  class MemoryMgr {
    var allocCache: seq<Entry>
    var deferredIndex: nat
    const deferredFree: array<nat>
    const deferredFreeSize: array<nat>
    var allocs: map<nat, nat>
    var headers: map<nat, nat>
    ghost var books: Books

    ghost predicate Valid()
      reads this, deferredFree, deferredFreeSize
    {
      && deferredFree != deferredFreeSize && deferredIndex == |books.deferred|
      && Ring(books) && Cached(allocCache, books.blocks) && Mapped(allocs, headers, books.blocks)
      && Slots(deferredFree[..], deferredFreeSize[..], books)
    }

    constructor ()
      ensures Valid() && books == Books(map[], []) && fresh(deferredFree) && fresh(deferredFreeSize)
    {
      allocCache, deferredIndex, allocs, headers := [], 0, map[], map[];
      deferredFree := new nat[64](_ => 0);
      deferredFreeSize := new nat[64](_ => 0);
      books := Books(map[], []);
    }

    /** The search for a free block of exactly this size; 0 if there is none. */
    method PopCached(size: nat) returns (pp: nat)
      requires Cached(allocCache, books.blocks) && 0 !in books.blocks
      modifies this`allocCache
      ensures pp == 0 ==> allocCache == old(allocCache) && forall b :: b in books.blocks ==>
                books.blocks[b] != Block(size, Free)
      ensures pp != 0 ==>
                pp in books.blocks && books.blocks[pp] == Block(size, Free)
                  && Cached(allocCache, books.blocks[pp := Block(size, Live)])
    {
      pp := 0;
      var i := 0;
      while i != |allocCache|
        invariant 0 <= i <= |allocCache| && allocCache == old(allocCache)
        invariant forall j :: 0 <= j < i ==> allocCache[j].size != size
        decreases |allocCache| - i
      {
        if allocCache[i].size == size {
          var free := allocCache[i].free;
          if free != [] {
            CachedPop(allocCache, books.blocks, i);
            pp := free[|free| - 1];
            allocCache := allocCache[i := Entry(size, free[..|free| - 1])];
            return;
          }
          break;
        }
        i := i + 1;
      }
      assert forall j :: 0 <= j < |allocCache| && allocCache[j].size == size ==> allocCache[j].free == [] by {
        if i < |allocCache| {
          SizesDiffer(allocCache, books.blocks, i);
        }
      }
      NoneFree(allocCache, books.blocks, size);
    }

    /** alloc; `system` is the block that malloc gives, if it is asked: a new one, or null. */
    method Alloc(size: nat, system: nat) returns (ok: bool, p: nat)
      requires Valid() && system !in books.blocks
      modifies this
      ensures Valid()
      ensures if ok then Allocated(old(books), old(allocs), books, allocs, size, system, p)
              else books == old(books) && allocs == old(allocs) && NothingToGive(books, size, system)
    {
      assert 0 !in books.blocks;
      hide Ring, Cached, Slots, Mapped, Allocated;
      var pp := PopCached(size);
      if pp == 0 {
        if system == 0 {
          return false, 0;
        }
        pp := system;
        hide NothingToGive;
        CachedOther(allocCache, books.blocks, pp, Block(size, Live));
      }
      p := GiveOut(pp, size, system);
      ok := true;
    }

    /** The header is written and the block registered as live. */
    method GiveOut(pp: nat, size: nat, system: nat) returns (p: nat)
      requires deferredFree != deferredFreeSize && deferredIndex == |books.deferred| && pp != 0
      requires Ring(books) && Mapped(allocs, headers, books.blocks)
               && Slots(deferredFree[..], deferredFreeSize[..], books)
      requires CanAlloc(books, pp, size) && Cached(allocCache, books.blocks[pp := Block(size, Live)])
               && (pp in books.blocks || pp == system)
      modifies this`headers, this`allocs, this`books
      ensures Valid() && Allocated(old(books), old(allocs), books, allocs, size, system, p)
    {
      hide Ring, Cached, Slots, Mapped, Allocated;
      RingAlloc(books, pp, size);
      SlotsAlloc(deferredFree[..], deferredFreeSize[..], books, pp, size);
      MappedAlloc(allocs, headers, books, pp, size);
      AllocatedIntro(books, allocs, size, system, pp);
      hide CanAlloc;
      headers := headers[pp := size];
      p := pp + ALIGNMENT;
      allocs := allocs[p := size];
      books := AfterAlloc(books, pp, size);
    }

    /** rl_free_impl */
    method RlFreeImpl(p: nat, size: nat)
      requires Cached(allocCache, books.blocks) && p in books.blocks && books.blocks[p].place != Free
               && books.blocks[p].size == size
      modifies this`allocCache
      ensures Cached(allocCache, Move(books.blocks, p, Free))
    {
      var i := 0;
      while i != |allocCache|
        invariant 0 <= i <= |allocCache| && allocCache == old(allocCache)
        invariant forall j :: 0 <= j < i ==> allocCache[j].size != size
        decreases |allocCache| - i
      {
        if allocCache[i].size == size {
          CachedPush(allocCache, books.blocks, p, i);
          allocCache := allocCache[i := Entry(size, allocCache[i].free + [p])];
          return;
        }
        i := i + 1;
      }
      CachedNew(allocCache, books.blocks, p);
      allocCache := allocCache + [Entry(size, [p])];
    }

    /** The deferring half of free: the block goes into the ring, and what the next slot holds is freed. */
    method Defer(p: nat, size: nat)
      requires deferredFree != deferredFreeSize && deferredIndex == |books.deferred| && p != 0
      requires Ring(books) && Cached(allocCache, books.blocks) && Slots(deferredFree[..], deferredFreeSize[..], books)
      requires CanFree(books, p) && books.blocks[p].size == size
      modifies this`allocCache, this`deferredIndex, this`books, deferredFree, deferredFreeSize
      ensures books == AfterFree(old(books), p, true) && deferredIndex == |books.deferred|
      ensures Cached(allocCache, books.blocks) && Slots(deferredFree[..], deferredFreeSize[..], books)
    {
      ghost var k, n := books, deferredIndex;
      ghost var slots, sizes := deferredFree[..], deferredFreeSize[..];
      SlotsDefer(slots, sizes, k, p);
      assert |slots| == 64 == |sizes|;
      hide Ring, Cached, Slots;
      deferredFree[deferredIndex % 64] := p;
      deferredFreeSize[deferredIndex % 64] := size;
      assert deferredFree[..] == slots[n % 64 := p] && deferredFreeSize[..] == sizes[n % 64 := size];
      deferredIndex := deferredIndex + 1;
      CachedOther(allocCache, k.blocks, p, Block(size, Deferred(n)));
      books := k.(blocks := Move(k.blocks, p, Deferred(n)));
      var q := deferredFree[deferredIndex % 64];
      var qsize := deferredFreeSize[deferredIndex % 64];
      if q != 0 {
        RlFreeImpl(q, qsize);
      }
      books := AfterFree(k, p, true);
    }

    method FreeNow(p: nat, size: nat)
      requires Ring(books) && Cached(allocCache, books.blocks) && Slots(deferredFree[..], deferredFreeSize[..], books)
      requires CanFree(books, p) && books.blocks[p].size == size
      modifies this`allocCache, this`books
      ensures books == AfterFree(old(books), p, false) && deferredIndex == old(deferredIndex)
              && |books.deferred| == |old(books).deferred|
      ensures Cached(allocCache, books.blocks) && Slots(deferredFree[..], deferredFreeSize[..], books)
    {
      RlFreeImpl(p, size);
      hide Cached;
      SlotsFree(deferredFree[..], deferredFreeSize[..], books, p);
      hide Slots, Ring;
      books := AfterFree(books, p, false);
    }

    /** The live block behind pp goes to its free list, or into the ring. */
    method TakeBack(pp: nat, defer: bool)
      requires Valid() && pp in allocs
      modifies this, deferredFree, deferredFreeSize
      ensures Valid() && Freed(old(books), old(allocs), books, allocs, pp, defer)
    {
      hide Ring, Cached, Slots, Mapped, Freed;
      MappedFind(allocs, headers, books, pp);
      MappedFree(allocs, headers, books, pp, defer);
      RingFree(books, pp - ALIGNMENT, defer);
      FreedIntro(books, allocs, pp, defer);
      hide CanFree, AfterFree;
      allocs := allocs - {pp};
      var p := pp - ALIGNMENT;
      var size := headers[p];
      if defer {
        Defer(p, size);
      } else {
        FreeNow(p, size);
      }
    }

    /** free: false exactly for a pointer that is not null and not live. */
    method FreeMemory(pp: nat, defer: bool) returns (ok: bool)
      requires Valid()
      modifies this, deferredFree, deferredFreeSize
      ensures Valid()
      ensures ok <==> pp == 0 || pp in old(allocs)
      ensures if ok && pp != 0 then Freed(old(books), old(allocs), books, allocs, pp, defer)
              else books == old(books) && allocs == old(allocs)
    {
      hide Ring, Cached, Slots, Mapped, Freed;
      ok := pp == 0 || pp in allocs;
      if ok && pp != 0 {
        TakeBack(pp, defer);
      }
    }

    /** iteration_end: whether everything has been freed. */
    method IterationEnd() returns (ok: bool)
      requires Valid()
      ensures ok <==> forall b :: b in books.blocks ==> books.blocks[b].place != Live
    {
      ok := allocs == map[];
      assert forall p :: p in allocs ==> books.blocks[p - ALIGNMENT].place == Live;
      assert forall b :: b in books.blocks && books.blocks[b].place == Live ==> b + ALIGNMENT in allocs;
    }
  }

  lemma SizesDiffer(cache: seq<Entry>, blocks: map<nat, Block>, i: nat)
    requires Cached(cache, blocks) && i < |cache|
    ensures forall j :: 0 <= j < |cache| && j != i ==> cache[j].size != cache[i].size
  {
  }

  lemma SlotsFree(slots: seq<nat>, sizes: seq<nat>, k: Books, b: nat)
    requires Ring(k) && Slots(slots, sizes, k) && CanFree(k, b)
    ensures Slots(slots, sizes, AfterFree(k, b, false))
  {
  }
}
