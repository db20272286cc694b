/** The intrusive doubly linked list of the eventcount. The nodes of all lists live in one pool of prev and next
    pointers; a list has a head and a tail node of its own. */
module LinkedList {

  /** All pointers; -1 is null. */
  datatype Links = Links(next: seq<int>, prev: seq<int>)

  function Get(a: seq<int>, i: int): int {
    if 0 <= i < |a| then a[i] else -1
  }

  function Set(a: seq<int>, i: int, v: int): (r: seq<int>)
    ensures |r| == |a| && forall j :: 0 <= j < |a| ==> r[j] == if j == i then v else a[j]
  {
    if 0 <= i < |a| then a[i := v] else a
  }

  // ---- the operations, on pointers alone

  /** reset */
  function ResetLinks(l: Links, head: nat, tail: nat): Links {
    Links(Set(Set(l.next, head, tail), tail, -1), Set(Set(l.prev, head, -1), tail, head))
  }

  /** push: at the front. */
  function PushLinks(l: Links, head: nat, n: nat): Links {
    var first := Get(l.next, head);
    Links(Set(Set(l.next, n, first), head, n), Set(Set(l.prev, n, head), first, n))
  }

  function RemoveLinks(l: Links, n: nat): Links {
    var p, x := Get(l.prev, n), Get(l.next, n);
    Links(Set(l.next, p, x), Set(l.prev, x, p))
  }

  /** The first half of flush_to: the nodes get the target's ends. */
  function MoveLinks(l: Links, head: nat, tail: nat, h: nat, t: nat): Links {
    var first, last := Get(l.next, head), Get(l.prev, tail);
    Links(Set(Set(l.next, h, first), last, t), Set(Set(l.prev, first, h), t, last))
  }

  /** flush_to */
  function FlushLinks(l: Links, size: nat, head: nat, tail: nat, h: nat, t: nat): Links {
    ResetLinks(if size != 0 then MoveLinks(l, head, tail, h, t) else ResetLinks(l, h, t), head, tail)
  }

  // ---- what the pointers mean

  ghost predicate Sized(l: Links) {
    |l.next| == |l.prev|
  }

  /** path is linked in both directions. */
  ghost predicate Linked(l: Links, path: seq<nat>) {
    && Sized(l)
    && (forall i :: 0 <= i < |path| ==> path[i] < |l.next|)
    && (forall i, j :: 0 <= i < j < |path| ==> path[i] != path[j])
    && forall i, j :: 0 <= i < j < |path| && j == i + 1 ==> l.next[path[i]] == path[j] && l.prev[path[j]] == path[i]
  }

  /** The whole list: head, the nodes, tail; the tail's next pointer is null, which ends a traversal. */
  ghost predicate Whole(l: Links, head: nat, items: seq<nat>, tail: nat) {
    Linked(l, [head] + items + [tail]) && tail < |l.next| && l.next[tail] == -1
  }

  /** What a traversal that has got this far still has to read. */
  ghost predicate Rest(l: Links, rest: seq<nat>, tail: nat) {
    Linked(l, rest + [tail]) && tail < |l.next| && l.next[tail] == -1
  }

  function First(rest: seq<nat>, tail: nat): nat {
    if rest == [] then tail else rest[0]
  }

  /** Pointers outside these nodes are as before. */
  ghost predicate SameElsewhere(l: Links, r: Links, nodes: seq<nat>) {
    && |l.next| == |r.next| && |l.prev| == |r.prev|
    && (forall x :: 0 <= x < |l.next| && x !in nodes ==> r.next[x] == l.next[x])
    && forall x :: 0 <= x < |l.prev| && x !in nodes ==> r.prev[x] == l.prev[x]
  }

  /** Pointers of nodes outside the path do not matter to it. */
  lemma Frame(l: Links, r: Links, path: seq<nat>)
    requires Linked(l, path) && Sized(r) && |r.next| == |l.next|
    requires forall x :: x in path && x < |l.next| ==> r.next[x] == l.next[x] && r.prev[x] == l.prev[x]
    ensures Linked(r, path)
  {
    assert forall i :: 0 <= i < |path| ==> path[i] in path;
  }

  lemma WholeFrame(l: Links, r: Links, head: nat, items: seq<nat>, tail: nat)
    requires Whole(l, head, items, tail) && Sized(r) && |r.next| == |l.next|
    requires forall x :: x in [head] + items + [tail] && x < |l.next| ==>
               r.next[x] == l.next[x] && r.prev[x] == l.prev[x]
    ensures Whole(r, head, items, tail)
  {
    var path := [head] + items + [tail];
    assert path[|items| + 1] == tail && tail in path;
    Frame(l, r, path);
  }

  lemma RestFrame(l: Links, r: Links, rest: seq<nat>, tail: nat)
    requires Rest(l, rest, tail) && Sized(r) && |r.next| == |l.next|
    requires forall x :: x in rest + [tail] && x < |l.next| ==> r.next[x] == l.next[x] && r.prev[x] == l.prev[x]
    ensures Rest(r, rest, tail)
  {
    var path := rest + [tail];
    assert path[|rest|] == tail && tail in path;
    Frame(l, r, path);
  }

  /** A list after its head is something that a traversal has to read. */
  lemma WholeIsRest(l: Links, head: nat, items: seq<nat>, tail: nat)
    requires Whole(l, head, items, tail)
    ensures Rest(l, items, tail) && head < |l.next| && l.next[head] == First(items, tail)
  {
    var path, rest := [head] + items + [tail], items + [tail];
    assert forall i :: 0 <= i < |rest| ==> rest[i] == path[i + 1];
    assert path[0] == head && path[1] == First(items, tail);
    forall i, j | 0 <= i < j < |rest| && j == i + 1
      ensures l.next[rest[i]] == rest[j] && l.prev[rest[j]] == rest[i]
    {
      assert l.next[path[i + 1]] == path[j + 1] && l.prev[path[j + 1]] == path[i + 1];
    }
    forall i, j | 0 <= i < j < |rest|
      ensures rest[i] != rest[j]
    {
      assert path[i + 1] != path[j + 1];
    }
  }

  /** One step of a traversal: it ends at the tail exactly, and otherwise reads the following node. */
  lemma RestStep(l: Links, rest: seq<nat>, tail: nat)
    requires Rest(l, rest, tail)
    ensures First(rest, tail) < |l.next|
    ensures rest == [] <==> l.next[First(rest, tail)] == -1
    ensures rest != [] ==> l.next[rest[0]] == First(rest[1..], tail) && Rest(l, rest[1..], tail)
  {
    var path := rest + [tail];
    assert path[0] == First(rest, tail);
    if rest != [] {
      assert path[1] == First(rest[1..], tail);
      var after := rest[1..] + [tail];
      assert forall i :: 0 <= i < |after| ==> after[i] == path[i + 1];
      forall i, j | 0 <= i < j < |after| && j == i + 1
        ensures l.next[after[i]] == after[j] && l.prev[after[j]] == after[i]
      {
        assert l.next[path[i + 1]] == path[j + 1] && l.prev[path[j + 1]] == path[i + 1];
      }
      forall i, j | 0 <= i < j < |after|
        ensures after[i] != after[j]
      {
        assert path[i + 1] != path[j + 1];
      }
    }
  }

  lemma ResetWhole(l: Links, head: nat, tail: nat)
    requires Sized(l) && head != tail && head < |l.next| && tail < |l.next|
    ensures Whole(ResetLinks(l, head, tail), head, [], tail)
            && SameElsewhere(l, ResetLinks(l, head, tail), [head, tail])
  {
    assert [head] + [] + [tail] == [head, tail];
  }

  lemma PushPath(l: Links, head: nat, rest: seq<nat>, n: nat)
    requires Linked(l, [head] + rest) && rest != [] && n < |l.next| && n !in [head] + rest
    ensures Linked(PushLinks(l, head, n), [head] + [n] + rest)
    ensures SameElsewhere(l, PushLinks(l, head, n), [head, n, rest[0]])
  {
    var was, path, r := [head] + rest, [head] + [n] + rest, PushLinks(l, head, n);
    assert was[0] == head && was[1] == rest[0];
    assert Get(l.next, head) == rest[0];
    assert forall i :: 0 <= i < |path| ==> path[i] == if i == 0 then head else if i == 1 then n else was[i - 1];
    forall i, j | 0 <= i < j < |path|
      ensures path[i] != path[j]
    {
      if i == 1 {
        assert was[j - 1] in was;
      } else if j == 1 {
        assert was[0] in was;
      } else {
        assert was[if i == 0 then 0 else i - 1] != was[j - 1];
      }
    }
    forall i, j | 0 <= i < j < |path| && j == i + 1
      ensures r.next[path[i]] == path[j] && r.prev[path[j]] == path[i]
    {
      if i >= 2 {
        assert l.next[was[i - 1]] == was[i] && l.prev[was[i]] == was[i - 1];
        assert was[i] != was[0] && was[i - 1] != was[0] && was[i] != was[1];
        assert was[i - 1] in was && was[i] in was;
      }
    }
  }

  lemma PushWhole(l: Links, head: nat, items: seq<nat>, tail: nat, n: nat)
    requires Whole(l, head, items, tail) && n < |l.next| && n !in [head] + items + [tail]
    ensures Whole(PushLinks(l, head, n), head, [n] + items, tail)
    ensures SameElsewhere(l, PushLinks(l, head, n), [head, n, First(items, tail)])
  {
    var rest, path := items + [tail], [head] + items + [tail];
    assert path == [head] + rest && path[0] == head && path[|items| + 1] == tail;
    assert tail in path && rest[0] == First(items, tail);
    PushPath(l, head, rest, n);
    assert [head] + ([n] + items) + [tail] == [head] + [n] + rest;
  }

  lemma RemovePath(l: Links, path: seq<nat>, k: nat)
    requires Linked(l, path) && 0 < k < |path| - 1
    ensures Linked(RemoveLinks(l, path[k]), path[..k] + path[k + 1..])
    ensures SameElsewhere(l, RemoveLinks(l, path[k]), [path[k - 1], path[k + 1]])
  {
    var r, left := RemoveLinks(l, path[k]), path[..k] + path[k + 1..];
    assert k - 1 < k && l.prev[path[k]] == path[k - 1] && l.next[path[k]] == path[k + 1];
    assert forall i :: 0 <= i < |left| ==> left[i] == if i < k then path[i] else path[i + 1];
    forall i, j | 0 <= i < j < |left| && j == i + 1
      ensures r.next[left[i]] == left[j] && r.prev[left[j]] == left[i]
    {
      if i < k - 1 {
        assert l.next[path[i]] == path[j] && l.prev[path[j]] == path[i];
      } else if i >= k {
        assert l.next[path[i + 1]] == path[j + 1] && l.prev[path[j + 1]] == path[i + 1];
      }
    }
  }

  lemma RemoveWhole(l: Links, head: nat, items: seq<nat>, tail: nat, k: nat)
    requires Whole(l, head, items, tail) && k < |items|
    ensures Whole(RemoveLinks(l, items[k]), head, items[..k] + items[k + 1..], tail)
    ensures SameElsewhere(l, RemoveLinks(l, items[k]), [head] + items[..k] + items[k + 1..] + [tail])
  {
    hide Linked, RemoveLinks, SameElsewhere;
    var path := [head] + items + [tail];
    assert path[k + 1] == items[k];
    RemovePath(l, path, k + 1);
    var left, r := [head] + items[..k] + items[k + 1..] + [tail], RemoveLinks(l, items[k]);
    assert path[..k + 1] + path[k + 2..] == left;
    assert left == [head] + (items[..k] + items[k + 1..]) + [tail];
    assert left[k] == path[k] && left[k + 1] == path[k + 2];
    SameMore(l, r, [path[k], path[k + 2]], left);
    TailStays(l, r, path, k + 1);
  }

  lemma SameMore(l: Links, r: Links, a: seq<nat>, b: seq<nat>)
    requires SameElsewhere(l, r, a) && forall x :: x in a ==> x in b
    ensures SameElsewhere(l, r, b)
  {
  }

  lemma SameTwice(l: Links, m: Links, r: Links, a: seq<nat>, b: seq<nat>, c: seq<nat>)
    requires SameElsewhere(l, m, a) && SameElsewhere(m, r, b) && forall x :: x in a || x in b ==> x in c
    ensures SameElsewhere(l, r, c)
  {
  }

  /** Removing a node from the middle does not change the tail's next pointer. */
  lemma TailStays(l: Links, r: Links, path: seq<nat>, k: nat)
    requires Linked(l, path) && 0 < k < |path| - 1 && r == RemoveLinks(l, path[k])
    ensures |r.next| == |l.next| && r.next[path[|path| - 1]] == l.next[path[|path| - 1]]
  {
    assert l.prev[path[k]] == path[k - 1];
  }

  /** The nodes of a list between other ends. */
  lemma MoveWhole(l: Links, head: nat, items: seq<nat>, tail: nat, h: nat, t: nat)
    requires Whole(l, head, items, tail) && items != [] && h != t && h < |l.next| && t < |l.next| && l.next[t] == -1
    requires h !in [head] + items + [tail] && t !in [head] + items + [tail]
    ensures Whole(MoveLinks(l, head, tail, h, t), h, items, t)
    ensures SameElsewhere(l, MoveLinks(l, head, tail, h, t), [h] + items + [t])
  {
    var path, moved, r := [head] + items + [tail], [h] + items + [t], MoveLinks(l, head, tail, h, t);
    var m := |items|;
    assert moved[0] == h && moved[m + 1] == t && |moved| == m + 2 == |path|;
    assert path[0] == head && path[1] == items[0] && path[m] == items[m - 1] && path[m + 1] == tail;
    assert l.next[path[0]] == path[1] && l.prev[path[m + 1]] == path[m];
    assert forall i :: 0 < i < |path| - 1 ==> path[i] == items[i - 1] && moved[i] == items[i - 1];
    forall i | 0 <= i < m
      ensures items[i] != h && items[i] != t
    {
      assert items[i] == path[i + 1] && path[i + 1] in path;
    }
    forall i, j | 0 <= i < j < |moved|
      ensures moved[i] != moved[j]
    {
      if 0 < i && j < |moved| - 1 {
        assert path[i] != path[j];
      }
    }
    forall i, j | 0 <= i < j < |moved| && j == i + 1
      ensures r.next[moved[i]] == moved[j] && r.prev[moved[j]] == moved[i]
    {
      if 0 < i && j < m + 1 {
        assert l.next[path[i]] == path[j] && l.prev[path[j]] == path[i];
        assert path[i] != path[m] && path[j] != path[1];
      }
    }
    assert items[0] in items && items[m - 1] in items;
  }

  /** Emptying a list leaves another list alone. */
  lemma ResetBeside(m: Links, head: nat, tail: nat, h: nat, items: seq<nat>, t: nat)
    requires Whole(m, h, items, t) && head != tail && head < |m.next| && tail < |m.next|
    requires head !in [h] + items + [t] && tail !in [h] + items + [t]
    ensures Whole(ResetLinks(m, head, tail), head, [], tail) && Whole(ResetLinks(m, head, tail), h, items, t)
    ensures SameElsewhere(m, ResetLinks(m, head, tail), [head, tail])
  {
    ResetWhole(m, head, tail);
    hide Linked;
    WholeSized(m, h, items, t);
    WholeFrame(m, ResetLinks(m, head, tail), h, items, t);
  }

  lemma WholeSized(l: Links, head: nat, items: seq<nat>, tail: nat)
    requires Whole(l, head, items, tail)
    ensures Sized(l) && head != tail && head < |l.next| && tail < |l.next|
    ensures head !in items && tail !in items
  {
    var path := [head] + items + [tail];
    assert path[0] == head && path[|items| + 1] == tail;
    assert forall i :: 0 <= i < |items| ==>
        path[i + 1] == items[i] && path[i + 1] != path[0] && path[i + 1] != path[|items| + 1];
  }

  lemma FlushWhole(l: Links, head: nat, items: seq<nat>, tail: nat, h: nat, t: nat)
    requires Whole(l, head, items, tail) && Whole(l, h, [], t)
    requires h !in [head] + items + [tail] && t !in [head] + items + [tail]
    ensures Whole(FlushLinks(l, |items|, head, tail, h, t), head, [], tail)
    ensures Whole(FlushLinks(l, |items|, head, tail, h, t), h, items, t)
    ensures SameElsewhere(l, FlushLinks(l, |items|, head, tail, h, t), [head, tail, h, t] + items)
  {
    WholeSized(l, head, items, tail);
    WholeSized(l, h, [], t);
    assert l.next[t] == -1;
    var m := if |items| != 0 then MoveLinks(l, head, tail, h, t) else ResetLinks(l, h, t);
    hide Whole, Linked, ResetLinks, MoveLinks, SameElsewhere;
    if items != [] {
      MoveWhole(l, head, items, tail, h, t);
    } else {
      ResetWhole(l, h, t);
      SameMore(l, m, [h, t], [h] + items + [t]);
    }
    assert |m.next| == |l.next| by {
      WholeSized(m, h, items, t);
      SameLength(l, m, [h] + items + [t]);
    }
    ResetBeside(m, head, tail, h, items, t);
    SameTwice(l, m, ResetLinks(m, head, tail), [h] + items + [t], [head, tail], [head, tail, h, t] + items);
  }

  lemma SameLength(l: Links, r: Links, nodes: seq<nat>)
    requires SameElsewhere(l, r, nodes)
    ensures |r.next| == |l.next| && |r.prev| == |l.prev|
  {
  }

  // ---- the object

  class Pool {
    const next: array<int>
    const prev: array<int>

    constructor (n: nat)
      ensures next.Length == prev.Length == n && next != prev && fresh(next) && fresh(prev)
    {
      next := new int[n](_ => -1);
      prev := new int[n](_ => -1);
    }
  }

  class DList {
    const pool: Pool
    const head: nat
    const tail: nat
    var size: nat
    ghost var items: seq<nat>

    ghost function View(): Links
      reads pool.next, pool.prev
    {
      Links(pool.next[..], pool.prev[..])
    }

    ghost predicate Shaped() {
      && pool.next != pool.prev && pool.next.Length == pool.prev.Length
      && head != tail && head < pool.next.Length && tail < pool.next.Length
    }

    ghost predicate Valid()
      reads this, pool.next, pool.prev
    {
      Shaped() && size == |items| && Whole(View(), head, items, tail)
    }

    constructor (pool: Pool, head: nat, tail: nat)
      requires pool.next != pool.prev && pool.next.Length == pool.prev.Length
      requires head != tail && head < pool.next.Length && tail < pool.next.Length
      modifies pool.next, pool.prev
      ensures this.pool == pool && this.head == head && this.tail == tail && Valid() && items == []
      ensures View() == ResetLinks(Links(old(pool.next[..]), old(pool.prev[..])), head, tail)
    {
      this.pool, this.head, this.tail := pool, head, tail;
      new;
      Reset();
    }

    method Reset()
      requires Shaped()
      modifies this`size, this`items, pool.next, pool.prev
      ensures Valid() && items == [] && View() == ResetLinks(old(View()), head, tail)
    {
      ResetWhole(View(), head, tail);
      ghost var l := View();
      size := 0;
      items := [];
      pool.next[head] := tail;
      pool.prev[head] := -1;
      pool.next[tail] := -1;
      pool.prev[tail] := head;
      assert View() == ResetLinks(l, head, tail);
    }

    method Push(n: nat)
      requires Valid() && n < pool.next.Length && n !in [head] + items + [tail]
      modifies this`size, this`items, pool.next, pool.prev
      ensures Valid() && items == [n] + old(items) && View() == PushLinks(old(View()), head, n)
      ensures SameElsewhere(old(View()), View(), [head, n, First(old(items), tail)])
    {
      ghost var l := View();
      WholeIsRest(l, head, items, tail);
      RestStep(l, items, tail);
      PushWhole(l, head, items, tail, n);
      size := size + 1;
      pool.next[n] := pool.next[head];
      pool.prev[n] := head;
      pool.prev[pool.next[head]] := n;
      pool.next[head] := n;
      items := [n] + items;
      assert View() == PushLinks(l, head, n);
    }

    method Remove(n: nat, ghost k: nat)
      requires Valid() && k < |items| && items[k] == n
      modifies this`size, this`items, pool.next, pool.prev
      ensures Valid() && items == old(items)[..k] + old(items)[k + 1..] && View() == RemoveLinks(old(View()), n)
      ensures SameElsewhere(old(View()), View(), [head] + old(items)[..k] + old(items)[k + 1..] + [tail])
    {
      ghost var l, path := View(), [head] + items + [tail];
      assert path[k + 1] == n && l.next[path[k]] == path[k + 1] && l.prev[path[k + 1]] == path[k];
      assert l.next[path[k + 1]] == path[k + 2] && path[k + 2] < |l.next| && path[k] < |l.next|;
      RemoveWhole(l, head, items, tail, k);
      size := size - 1;
      pool.next[pool.prev[n]] := pool.next[n];
      pool.prev[pool.next[n]] := pool.prev[n];
      items := items[..k] + items[k + 1..];
      assert path[k] != n && path[k + 2] != n;
      assert View() == RemoveLinks(l, n);
    }

    method Pop() returns (some: bool, n: nat)
      requires Valid()
      modifies this`size, this`items, pool.next, pool.prev
      ensures Valid() && some == (old(items) != [])
      ensures some ==> n == old(items)[0] && items == old(items)[1..] && View() == RemoveLinks(old(View()), n)
      ensures some ==> SameElsewhere(old(View()), View(), [head] + old(items)[1..] + [tail])
      ensures !some ==> items == [] && View() == old(View())
    {
      if size == 0 {
        return false, 0;
      }
      WholeIsRest(View(), head, items, tail);
      assert items[..0] == [] && [head] + items[..0] + items[1..] + [tail] == [head] + items[1..] + [tail];
      n := pool.next[head];
      Remove(n, 0);
      some := true;
    }

    /** flush_to: all nodes move to an empty target. */
    method FlushTo(target: DList)
      requires Valid() && target.pool == pool && target != this && target.Valid() && target.items == []
      requires target.head !in [head] + items + [tail] && target.tail !in [head] + items + [tail]
      modifies this`size, this`items, target`size, target`items, pool.next, pool.prev
      ensures Valid() && target.Valid() && items == [] && target.items == old(items)
      ensures View() == FlushLinks(old(View()), |old(items)|, head, tail, target.head, target.tail)
      ensures SameElsewhere(old(View()), View(), [head, tail, target.head, target.tail] + old(items))
    {
      FlushWhole(View(), head, items, tail, target.head, target.tail);
      if size != 0 {
        MoveNodes(target);
      } else {
        target.Reset();
      }
      Reset();
    }

    method MoveNodes(target: DList)
      requires Valid() && target.pool == pool && target != this && items != [] && target.Valid() && target.items == []
      requires target.head !in [head] + items + [tail] && target.tail !in [head] + items + [tail]
      modifies target`size, target`items, pool.next, pool.prev
      ensures target.items == items && target.size == size
              && View() == MoveLinks(old(View()), head, tail, target.head, target.tail)
    {
      ghost var l, m := View(), |items|;
      ghost var path, ends := [head] + items + [tail], [target.head] + target.items + [target.tail];
      assert path[0] == head && path[1] == items[0] && path[m] == items[m - 1] && path[m + 1] == tail;
      assert l.next[path[0]] == path[1] && l.prev[path[m + 1]] == path[m];
      assert head in path && tail in path && path[1] < |l.next| && path[m] < |l.next|;
      assert path[1] != path[m + 1] && path[0] != path[m];
      assert path[m] in path && path[1] in path;
      target.size := size;
      pool.next[target.head] := pool.next[head];
      pool.prev[pool.next[target.head]] := target.head;
      pool.prev[target.tail] := pool.prev[tail];
      pool.next[pool.prev[target.tail]] := target.tail;
      target.items := items;
      assert View() == MoveLinks(l, head, tail, target.head, target.tail);
    }
  }
}
