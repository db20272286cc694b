/** Timestamps, clocks (one timestamp per thread) and memory orders. */
module Clocks {

  type Clock = seq<nat>

  /** Element-wise assign_max: what a thread knows after it merges two clocks. */
  function Max(a: Clock, b: Clock): (c: Clock)
    requires |a| == |b|
    ensures |c| == |a|
    ensures forall u :: 0 <= u < |a| ==> c[u] == if b[u] > a[u] then b[u] else a[u]
  {
    seq(|a|, u requires 0 <= u < |a| => if b[u] > a[u] then b[u] else a[u])
  }

  function Zeros(n: nat): (c: Clock)
    ensures |c| == n
    ensures forall u :: 0 <= u < n ==> c[u] == 0
  {
    seq(n, u => 0)
  }

  /** own_acq_rel_order_ += 1 */
  function Tick(c: Clock, t: nat): (r: Clock)
    requires t < |c|
    ensures |r| == |c| && r[t] == c[t] + 1
    ensures forall u :: 0 <= u < |c| && u != t ==> r[u] == c[u]
  {
    c[t := c[t] + 1]
  }

  datatype Order = Relaxed | Acquire | Release | AcqRel | SeqCst

  predicate Acquires(mo: Order) {
    mo == Acquire || mo == AcqRel || mo == SeqCst
  }

  predicate Releases(mo: Order) {
    mo == Release || mo == AcqRel || mo == SeqCst
  }

  /** A first_seen_order_ entry; the source writes Never as (timestamp_t)-1. */
  datatype Seen = Never | SeenAt(ts: nat)

  /** clock >= first_seen, where the all-ones value is never reached. */
  predicate Reaches(c: nat, s: Seen) {
    s.SeenAt? && c >= s.ts
  }
}
