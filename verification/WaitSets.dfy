/** The set of threads parked on one object (single-object waits). */
module WaitSets {

  predicate Distinct(s: seq<nat>) {
    forall i, j :: 0 <= i < j < |s| ==> s[i] != s[j]
  }

  /** The first position of t. */
  function Index(s: seq<nat>, t: nat): (i: nat)
    requires t in s
    ensures i < |s| && s[i] == t
  {
    if s[0] == t then 0 else 1 + Index(s[1..], t)
  }

  /** s without position i, the rest in order. */
  function Without(s: seq<nat>, i: nat): (r: seq<nat>)
    requires i < |s|
    ensures |r| == |s| - 1
    ensures Distinct(s) ==> Distinct(r)
    ensures Distinct(s) ==> forall x :: x in r <==> x in s && x != s[i]
  {
    var r := s[..i] + s[i + 1..];
    assert forall j :: 0 <= j < |r| ==> r[j] == if j < i then s[j] else s[j + 1];
    assert forall x :: x in r ==> x in s;
    assert forall j :: 0 <= j < |s| && j != i ==> s[j] == r[if j < i then j else j - 1];
    r
  }

  /** There are at most n distinct numbers below n. */
  lemma {:induction false} AtMost(s: seq<nat>, n: nat)
    requires Distinct(s) && forall x :: x in s ==> x < n
    ensures |s| <= n
  {
    if s != [] {
      assert s[0] in s;
      if n - 1 in s {
        var i :| 0 <= i < |s| && s[i] == n - 1;
        AtMost(Without(s, i), n - 1);
      } else {
        AtMost(s, n - 1);
      }
    }
  }

  /** A thread that is not parked finds room. */
  lemma RoomFor(s: seq<nat>, n: nat, t: nat)
    requires Distinct(s) && t < n && t !in s && forall x :: x in s ==> x < n
    ensures |s| < n
  {
    AtMost(s + [t], n);
  }

  /** set_ and size_ */
  class WaitSet {
    const slots: array<nat>
    var size: nat

    constructor (threads: nat)
      ensures Valid() && Contents() == [] && slots.Length == threads && fresh(slots)
    {
      slots := new nat[threads];
      size := 0;
    }

    ghost predicate Valid()
      reads this
    {
      size <= slots.Length
    }

    function Contents(): (s: seq<nat>)
      reads this, slots
      requires Valid()
    {
      slots[..size]
    }

    /** The first half of park_current; the second half, after a timeout, is Remove. */
    method Enter(t: nat)
      requires Valid() && size < slots.Length
      modifies this`size, slots
      ensures Valid() && Contents() == old(Contents()) + [t]
    {
      slots[size] := t;
      size := size + 1;
    }

    /** remove: find the thread and shift the rest down. */
    method Remove(t: nat, ghost at: nat)
      requires Valid() && at < size && slots[at] == t && Distinct(Contents())
      modifies this`size, slots
      ensures Valid() && Contents() == Without(old(Contents()), at)
    {
      ghost var was := Contents();
      var i := 0;
      while i != size
        invariant 0 <= i <= at && Contents() == was
        decreases size - i
      {
        if slots[i] == t {
          break;
        }
        i := i + 1;
      }
      assert was[i] == was[at];
      var j := i + 1;
      while j != size
        invariant size == |was| && i + 1 <= j <= size
        invariant forall k :: 0 <= k < i ==> slots[k] == was[k]
        invariant forall k :: i <= k < j - 1 ==> slots[k] == was[k + 1]
        invariant forall k :: j <= k < size ==> slots[k] == was[k]
        decreases size - j
      {
        slots[j - 1] := slots[j];
        j := j + 1;
      }
      size := size - 1;
    }

    /** try_remove, for a thread that waits on this object alone. */
    method TryRemove(idx: nat) returns (t: nat)
      requires Valid() && idx < size && Distinct(Contents())
      modifies this`size, slots
      ensures Valid() && t == old(slots[idx]) && Contents() == Without(old(Contents()), idx)
    {
      t := slots[idx];
      Remove(t, idx);
    }

    /** unpark_one; `pick` is the random choice. */
    method UnparkOne(pick: nat) returns (unparked: seq<nat>)
      requires Valid() && Distinct(Contents()) && (size > 0 ==> pick < size)
      modifies this`size, slots
      ensures Valid()
      ensures old(size) == 0 ==> unparked == [] && Contents() == []
      ensures old(size) > 0 ==> unparked == [old(Contents())[pick]] && Contents() == Without(old(Contents()), pick)
    {
      if size == 0 {
        return [];
      }
      var t := TryRemove(pick);
      unparked := [t];
    }

    /** unpark_all: the index goes back by one after each removal. */
    method UnparkAll() returns (unparked: seq<nat>)
      requires Valid() && Distinct(Contents())
      modifies this`size, slots
      ensures Valid() && Contents() == [] && unparked == old(Contents())
    {
      unparked := [];
      var idx := 0;
      while idx != size
        invariant Valid() && Distinct(Contents()) && idx == 0
        invariant unparked + Contents() == old(Contents())
        decreases size
      {
        ghost var was := Contents();
        var t := TryRemove(idx);
        assert was == [t] + Contents();
        unparked := unparked + [t];
        idx := idx - 1;
        idx := idx + 1;
      }
      assert Contents() == [];
    }
  }
}
