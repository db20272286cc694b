/** Sums of sequences. */
module Sums {

  function Sum(s: seq<nat>): nat {
    if s == [] then 0 else Sum(s[..|s| - 1]) + s[|s| - 1]
  }

  lemma {:induction false} SumPut(s: seq<nat>, i: nat, v: nat)
    requires i < |s|
    ensures Sum(s[i := v]) + s[i] == Sum(s) + v
  {
    var n := |s| - 1;
    if i < n {
      SumPut(s[..n], i, v);
      assert s[i := v][..n] == s[..n][i := v];
    } else {
      assert s[i := v][..n] == s[..n];
    }
  }

  lemma {:induction false} SumHas(s: seq<nat>, i: nat)
    requires i < |s|
    ensures s[i] <= Sum(s)
  {
    if i < |s| - 1 {
      SumHas(s[..|s| - 1], i);
    }
  }

  lemma {:induction false} SumZero(s: seq<nat>)
    ensures Sum(s) == 0 <==> forall j :: 0 <= j < |s| ==> s[j] == 0
  {
    if s != [] {
      SumZero(s[..|s| - 1]);
      assert s == s[..|s| - 1] + [s[|s| - 1]];
    }
  }

  lemma {:induction false} SumNone(n: nat)
    ensures Sum(seq(n, t => 0)) == 0
  {
    if n > 0 {
      assert seq(n, t => 0)[..n - 1] == seq(n - 1, t => 0);
      SumNone(n - 1);
    }
  }

  lemma {:induction false} Positive(s: seq<nat>) returns (u: nat)
    requires Sum(s) > 0
    ensures u < |s| && s[u] > 0
  {
    u := |s| - 1;
    if s[u] == 0 {
      u := Positive(s[..u]);
    }
  }
}
