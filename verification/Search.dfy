/** The exhaustive search: a stack of choices that works like an odometer over the choice tree
    of a deterministic test. */
module Search {

  /** One stree_node: which of how many alternatives was taken, and for what kind of decision. */
  datatype Choice = Choice(count: nat, index: nat, kind: nat)

  type Path = seq<Choice>

  /** A deterministic test: what it does next depends only on the choices made so far. Outcome 0 is success. */
  datatype Test = Done(outcome: nat) | Choose(kind: nat, next: seq<Test>)

  /** Every decision has at least one alternative. */
  predicate Proper(t: Test) {
    t.Choose? ==> |t.next| > 0 && forall k :: 0 <= k < |t.next| ==> Proper(t.next[k])
  }

  predicate Starts(t: Test, ch: Choice) {
    t.Choose? && ch.kind == t.kind && ch.count == |t.next| && ch.index < |t.next|
  }

  /** p is a sequence of choices that test t makes. */
  predicate Fits(t: Test, p: Path) {
    p == [] || (Starts(t, p[0]) && Fits(t.next[p[0].index], p[1..]))
  }

  /** What is left of the test after the choices p. */
  function After(t: Test, p: Path): (r: Test)
    requires Fits(t, p)
  {
    if p == [] then t else After(t.next[p[0].index], p[1..])
  }

  /** p runs from the root to a leaf. */
  predicate IsPath(t: Test, p: Path) {
    Fits(t, p) && After(t, p).Done?
  }

  /** All root-to-leaf paths, in lexicographic order. */
  function Paths(t: Test): (ps: seq<Path>)
    decreases t, 1, 0
  {
    if t.Done? then [[]] else PathsFrom(t, 0)
  }

  /** Those whose first choice is at least k. */
  function PathsFrom(t: Test, k: nat): (ps: seq<Path>)
    requires t.Choose? && k <= |t.next|
    decreases t, 0, |t.next| - k
  {
    if k == |t.next| then []
    else Each(Choice(|t.next|, k, t.kind), Paths(t.next[k])) + PathsFrom(t, k + 1)
  }

  function Each(ch: Choice, ps: seq<Path>): (r: seq<Path>)
    ensures |r| == |ps| && forall j :: 0 <= j < |ps| ==> r[j] == [ch] + ps[j]
  {
    seq(|ps|, j requires 0 <= j < |ps| => [ch] + ps[j])
  }

  /** p comes before q in lexicographic order. */
  predicate Before(p: Path, q: Path) {
    p != [] && q != [] && (p[0].index < q[0].index || (p[0] == q[0] && Before(p[1..], q[1..])))
  }

  // ---- the list of paths is the tree

  lemma {:induction false} PathsExact(t: Test, p: Path)
    requires Proper(t)
    ensures p in Paths(t) <==> IsPath(t, p)
    decreases t, 1, 0
  {
    if t.Choose? {
      PathsFromExact(t, 0, p);
    }
  }

  lemma {:induction false} PathsFromExact(t: Test, k: nat, p: Path)
    requires Proper(t) && t.Choose? && k <= |t.next|
    ensures p in PathsFrom(t, k) <==> IsPath(t, p) && p[0].index >= k
    decreases t, 0, |t.next| - k
  {
    if k < |t.next| {
      var ch, ps := Choice(|t.next|, k, t.kind), Paths(t.next[k]);
      PathsFromExact(t, k + 1, p);
      if p != [] {
        PathsExact(t.next[k], p[1..]);
        if p in Each(ch, ps) {
          var j :| 0 <= j < |ps| && p == [ch] + ps[j];
          assert p[1..] == ps[j];
        }
        if p[0] == ch && p[1..] in ps {
          var j :| 0 <= j < |ps| && ps[j] == p[1..];
          assert Each(ch, ps)[j] == p;
        }
      }
    }
  }

  lemma {:induction false} PathsSorted(t: Test, i: nat, j: nat)
    requires i < j < |Paths(t)|
    ensures Before(Paths(t)[i], Paths(t)[j])
    decreases t, 1, 0
  {
    if t.Choose? {
      PathsFromSorted(t, 0, i, j);
    }
  }

  lemma {:induction false} FirstChoice(t: Test, k: nat, j: nat)
    requires t.Choose? && k <= |t.next| && j < |PathsFrom(t, k)|
    ensures PathsFrom(t, k)[j] != [] && k <= PathsFrom(t, k)[j][0].index
    decreases |t.next| - k
  {
    var block := |Paths(t.next[k])|;
    if j >= block {
      FirstChoice(t, k + 1, j - block);
    }
  }

  lemma {:induction false} PathsFromSorted(t: Test, k: nat, i: nat, j: nat)
    requires t.Choose? && k <= |t.next| && i < j < |PathsFrom(t, k)|
    ensures Before(PathsFrom(t, k)[i], PathsFrom(t, k)[j])
    decreases t, 0, |t.next| - k
  {
    var ps := Paths(t.next[k]);
    if j < |ps| {
      PathsSorted(t.next[k], i, j);
      assert PathsFrom(t, k)[i][1..] == ps[i] && PathsFrom(t, k)[j][1..] == ps[j];
    } else if i < |ps| {
      FirstChoice(t, k + 1, j - |ps|);
    } else {
      PathsFromSorted(t, k + 1, i - |ps|, j - |ps|);
    }
  }

  lemma {:induction false} NotBeforeItself(p: Path)
    ensures !Before(p, p)
  {
    if p != [] {
      NotBeforeItself(p[1..]);
    }
  }

  /** No path is listed twice. */
  lemma PathsDistinct(t: Test, i: nat, j: nat)
    requires i < j < |Paths(t)|
    ensures Paths(t)[i] != Paths(t)[j]
  {
    PathsSorted(t, i, j);
    NotBeforeItself(Paths(t)[i]);
  }

  // ---- the odometer

  datatype Option<T> = None | Some(value: T)

  /** The stack that the next iteration starts from: the deepest choice that has an alternative left is
      advanced and everything after it dropped; None when there is no such choice. */
  function Next(p: Path): (r: Option<Path>)
  {
    if p == [] then None
    else
      var last := p[|p| - 1];
      if last.index != last.count - 1 then Some(p[..|p| - 1] + [last.(index := last.index + 1)])
      else Next(p[..|p| - 1])
  }

  /** The path an iteration follows when its stack starts as p: p, then first alternatives. */
  function Complete(t: Test, p: Path): (r: Path)
    requires Proper(t) && Fits(t, p)
    decreases t
  {
    if p != [] then [p[0]] + Complete(t.next[p[0].index], p[1..])
    else if t.Done? then []
    else [Choice(|t.next|, 0, t.kind)] + Complete(t.next[0], [])
  }

  /** Seen from the first choice: advance below it if possible, else advance it. */
  lemma {:induction false} NextFromTheRoot(ch: Choice, p: Path)
    ensures Next([ch] + p) ==
            match Next(p)
            case Some(q) => Some([ch] + q)
            case None => if ch.index != ch.count - 1 then Some([ch.(index := ch.index + 1)]) else None
  {
    var whole := [ch] + p;
    assert whole[..|whole| - 1] == if p == [] then [] else [ch] + p[..|p| - 1];
    if p != [] {
      assert whole[|whole| - 1] == p[|p| - 1];
      NextFromTheRoot(ch, p[..|p| - 1]);
      if p[|p| - 1].index != p[|p| - 1].count - 1 {
        assert whole[..|whole| - 1] + [p[|p| - 1].(index := p[|p| - 1].index + 1)]
            == [ch] + (p[..|p| - 1] + [p[|p| - 1].(index := p[|p| - 1].index + 1)]);
      }
    } else {
      assert whole[..0] + [ch.(index := ch.index + 1)] == [ch.(index := ch.index + 1)];
    }
  }

  lemma {:induction false} SomePath(t: Test)
    requires Proper(t)
    ensures |Paths(t)| > 0 && Complete(t, []) == Paths(t)[0]
  {
    if t.Choose? {
      SomePath(t.next[0]);
      assert |PathsFrom(t, 0)| > 0;
    }
  }

  /** Next is the successor on a list of paths of t: it yields a stack that completes to the next path,
      and None at the last one. */
  ghost predicate StepsThrough(t: Test, ps: seq<Path>, j: nat)
    requires Proper(t) && j < |ps|
  {
    match Next(ps[j])
    case Some(q) => j + 1 < |ps| && Fits(t, q) && Complete(t, q) == ps[j + 1]
    case None => j + 1 == |ps|
  }

  lemma {:induction false} OdometerFrom(t: Test, k: nat, j: nat)
    requires Proper(t) && t.Choose? && k <= |t.next| && j < |PathsFrom(t, k)|
    ensures StepsThrough(t, PathsFrom(t, k), j)
    decreases t, 0, |t.next| - k
  {
    var child, ch := t.next[k], Choice(|t.next|, k, t.kind);
    var ps, rest, all := Paths(child), PathsFrom(t, k + 1), PathsFrom(t, k);
    if j < |ps| {
      Odometer(child, j);
      NextFromTheRoot(ch, ps[j]);
      assert all[j] == [ch] + ps[j];
      if Next(ps[j]).Some? {
        var q := Next(ps[j]).value;
        assert ([ch] + q)[1..] == q;
        assert all[j + 1] == [ch] + ps[j + 1];
      } else if k + 1 < |t.next| {
        var up := [Choice(|t.next|, k + 1, t.kind)];
        SomePath(t.next[k + 1]);
        assert up[1..] == [];
        assert all[j + 1] == rest[0] == up + Paths(t.next[k + 1])[0];
      }
    } else {
      OdometerFrom(t, k + 1, j - |ps|);
      assert all[j] == rest[j - |ps|];
      assert j + 1 < |all| ==> all[j + 1] == rest[j + 1 - |ps|];
    }
  }

  /** Main theorem: the odometer steps through all the paths of the tree, in order, and stops after the last. */
  lemma {:induction false} Odometer(t: Test, j: nat)
    requires Proper(t) && j < |Paths(t)|
    ensures StepsThrough(t, Paths(t), j)
    decreases t, 1, 0
  {
    if t.Choose? {
      OdometerFrom(t, 0, j);
    }
  }

  lemma {:induction false} CompleteIsPath(t: Test, p: Path)
    requires Proper(t) && Fits(t, p)
    ensures IsPath(t, Complete(t, p)) && p <= Complete(t, p)
    decreases t
  {
    if p != [] {
      CompleteIsPath(t.next[p[0].index], p[1..]);
    } else if t.Choose? {
      CompleteIsPath(t.next[0], []);
    }
  }

  lemma {:induction false} CompleteOfPath(t: Test, p: Path)
    requires Proper(t) && IsPath(t, p)
    ensures Complete(t, p) == p
    decreases t
  {
    if p != [] {
      CompleteOfPath(t.next[p[0].index], p[1..]);
    }
  }

  lemma {:induction false} FitsPrefix(t: Test, p: Path, q: Path)
    requires Fits(t, p + q)
    ensures Fits(t, p) && Fits(After(t, p), q) && After(t, p + q) == After(After(t, p), q)
    decreases p
  {
    if p == [] {
      assert p + q == q;
    } else {
      assert (p + q)[1..] == p[1..] + q;
      FitsPrefix(t.next[p[0].index], p[1..], q);
    }
  }

  lemma {:induction false} FitsAppend(t: Test, p: Path, q: Path)
    requires Fits(t, p) && Fits(After(t, p), q)
    ensures Fits(t, p + q) && After(t, p + q) == After(After(t, p), q)
    decreases p
  {
    if p == [] {
      assert p + q == q;
    } else {
      assert (p + q)[1..] == p[1..] + q;
      FitsAppend(t.next[p[0].index], p[1..], q);
    }
  }

  lemma {:induction false} ProperAfter(t: Test, p: Path)
    requires Proper(t) && Fits(t, p)
    ensures Proper(After(t, p))
  {
    if p != [] {
      ProperAfter(t.next[p[0].index], p[1..]);
    }
  }

  lemma {:induction false} CompleteSplits(t: Test, p: Path, q: Path)
    requires Proper(t) && Fits(t, p) && Fits(After(t, p), q)
    requires Proper(After(t, p)) && Fits(t, p + q)
    ensures Complete(t, p + q) == p + Complete(After(t, p), q)
    decreases p
  {
    if p == [] {
      assert p + q == q;
    } else {
      assert (p + q)[1..] == p[1..] + q;
      CompleteSplits(t.next[p[0].index], p[1..], q);
    }
  }

  /** The decision at depth d of the stack p: the one already taken there, or the first alternative of a new one. */
  lemma StepInto(t: Test, p: Path, d: nat)
    requires Proper(t) && Fits(t, p) && d <= |p| && Fits(t, p[..d]) && After(t, p[..d]).Choose?
    ensures var rest := After(t, p[..d]);
            var p' := if d < |p| then p else p + [Choice(|rest.next|, 0, rest.kind)];
            && Proper(rest) && Starts(rest, p'[d])
            && Fits(t, p') && Fits(t, p'[..d + 1]) && After(t, p'[..d + 1]) == rest.next[p'[d].index]
            && Complete(t, p') == Complete(t, p)
  {
    var rest := After(t, p[..d]);
    ProperAfter(t, p[..d]);
    if d < |p| {
      assert p == p[..d] + p[d..];
      FitsPrefix(t, p[..d], p[d..]);
      assert p[..d + 1] == p[..d] + [p[d]] && p[d..][0] == p[d];
      FitsAppend(t, p[..d], [p[d]]);
    } else {
      var ch := Choice(|rest.next|, 0, rest.kind);
      assert p[..d] == p && (p + [ch])[..d + 1] == p + [ch];
      FitsAppend(t, p, [ch]);
      assert p + [] == p && [ch][1..] == [];
      CompleteSplits(t, p, [ch]);
      CompleteSplits(t, p, []);
    }
  }

  // ---- printing and parsing the state

  function Digit(d: nat): (ch: char)
    requires d < 10
    ensures '0' <= ch <= '9' && (ch as int) - 48 == d
  {
    '0' + (d as char)
  }

  predicate IsDigit(ch: char) {
    '0' <= ch <= '9'
  }

  /** ostream << unsigned */
  function Print(n: nat): (s: string)
  {
    if n < 10 then [Digit(n)] else Print(n / 10) + [Digit(n % 10)]
  }

  /** The value of a run of digits, read from the left. */
  function Value(s: string): (n: nat)
    requires forall i :: 0 <= i < |s| ==> IsDigit(s[i])
  {
    if s == [] then 0 else
    assert IsDigit(s[|s| - 1]);
    10 * Value(s[..|s| - 1]) + ((s[|s| - 1] as int) - 48)
  }

  function Digits(s: string): (n: nat)
    ensures n <= |s| && forall i :: 0 <= i < n ==> IsDigit(s[i])
    ensures n < |s| ==> !IsDigit(s[n])
  {
    if s == [] || !IsDigit(s[0]) then 0 else 1 + Digits(s[1..])
  }

  function Blanks(s: string): (n: nat)
    ensures n <= |s|
  {
    if s == [] || s[0] != ' ' then 0 else 1 + Blanks(s[1..])
  }

  /** istream >> unsigned: the value and what remains; after a failure every read yields 0. */
  function Parse(s: string): (nat, string)
  {
    var body := s[Blanks(s)..];
    var n := Digits(body);
    if n == 0 then (0, []) else (Value(body[..n]), body[n..])
  }

  function PrintNodes(stree: Path): (s: string)
  {
    if stree == [] then []
    else Print(stree[0].count) + " " + Print(stree[0].index) + " " + Print(stree[0].kind) + " " + PrintNodes(stree[1..])
  }

  /** The iteration number and the stack, as simulate writes them. */
  function PrintState(iter: nat, stree: Path): (s: string)
  {
    Print(iter) + " " + Print(|stree|) + " " + PrintNodes(stree)
  }

  function ParseNodes(size: nat, s: string): (Path, string)
    decreases size
  {
    if size == 0 then ([], s)
    else
      var (count, s1) := Parse(s);
      var (index, s2) := Parse(s1);
      var (kind, s3) := Parse(s2);
      var (rest, s4) := ParseNodes(size - 1, s3);
      ([Choice(count, index, kind)] + rest, s4)
  }

  lemma {:induction false} PrintIsDigits(n: nat)
    ensures |Print(n)| > 0 && (forall i :: 0 <= i < |Print(n)| ==> IsDigit(Print(n)[i])) && Value(Print(n)) == n
  {
    if n >= 10 {
      PrintIsDigits(n / 10);
      assert Print(n)[..|Print(n)| - 1] == Print(n / 10);
    }
  }

  lemma {:induction false} DigitsOf(d: string, rest: string)
    requires forall i :: 0 <= i < |d| ==> IsDigit(d[i])
    requires rest == [] || !IsDigit(rest[0])
    ensures Digits(d + rest) == |d|
  {
    if d == [] {
      assert d + rest == rest;
    } else {
      assert (d + rest)[1..] == d[1..] + rest;
      DigitsOf(d[1..], rest);
    }
  }

  lemma ParseDigits(d: string, rest: string)
    requires |d| > 0 && forall i :: 0 <= i < |d| ==> IsDigit(d[i])
    requires rest == [] || !IsDigit(rest[0])
    ensures Parse(d + rest) == (Value(d), rest)
    ensures Parse(" " + (d + rest)) == (Value(d), rest)
  {
    hide Value;
    DigitsOf(d, rest);
    var s := d + rest;
    assert s[..|d|] == d && s[|d|..] == rest;
    assert s[0..] == s;
    var blank := " " + s;
    assert blank[1..] == s;
    assert Blanks(s) == 0 && Blanks(blank) == 1;
  }

  /** Reading back a printed number, with the blank left by the previous one in front. */
  lemma ParsePrinted(n: nat, rest: string)
    ensures Parse(Print(n) + " " + rest) == (n, " " + rest)
    ensures Parse(" " + (Print(n) + " " + rest)) == (n, " " + rest)
  {
    hide Print, Parse;
    PrintIsDigits(n);
    assert Print(n) + " " + rest == Print(n) + (" " + rest);
    ParseDigits(Print(n), " " + rest);
  }

  lemma {:induction false} NodesRoundTrip(stree: Path)
    ensures ParseNodes(|stree|, " " + PrintNodes(stree)) == (stree, " ")
  {
    hide Print, Parse;
    if stree == [] {
      assert " " + PrintNodes(stree) == " ";
    } else {
      var tail := PrintNodes(stree[1..]);
      var c, i, k := Print(stree[0].count), Print(stree[0].index), Print(stree[0].kind);
      assert PrintNodes(stree) == c + " " + (i + " " + (k + " " + tail));
      ParsePrinted(stree[0].count, i + " " + (k + " " + tail));
      ParsePrinted(stree[0].index, k + " " + tail);
      ParsePrinted(stree[0].kind, tail);
      NodesRoundTrip(stree[1..]);
      assert [Choice(stree[0].count, stree[0].index, stree[0].kind)] + stree[1..] == stree;
    }
  }

  /** Parsing what was printed restores the iteration number and the stack, for every stack. */
  lemma StateRoundTrip(iter: nat, stree: Path)
    ensures var (n, s1) := Parse(PrintState(iter, stree));
            var (size, s2) := Parse(s1);
            n == iter && size == |stree| && ParseNodes(size, s2).0 == stree
  {
    hide Print, Parse;
    var nodes := PrintNodes(stree);
    assert PrintState(iter, stree) == Print(iter) + " " + (Print(|stree|) + " " + nodes);
    ParsePrinted(iter, Print(|stree|) + " " + nodes);
    ParsePrinted(|stree|, nodes);
    NodesRoundTrip(stree);
  }

  // ---- the scheduler and the simulation loop

  /** tree_search_scheduler's stree_ and stree_depth_. The `ok` results are false where RL_VERIFY fails. */
  class TreeSearch {
    var stree: seq<Choice>
    var depth: nat

    constructor ()
      ensures stree == [] && depth == 0
    {
      stree, depth := [], 0;
    }

    /** rand_impl */
    method Rand(limit: nat, kind: nat) returns (ok: bool, result: nat)
      modifies this
      ensures ok <==> old(depth == |stree|
              || (depth < |stree| && stree[depth].kind == kind && stree[depth].count == limit
              && stree[depth].index < limit))
      ensures ok && old(depth < |stree|) ==> stree == old(stree) && result == stree[old(depth)].index
      ensures ok && old(depth == |stree|) ==> stree == old(stree) + [Choice(limit, 0, kind)] && result == 0
      ensures ok ==> depth == old(depth) + 1
      ensures !ok ==> stree == old(stree) && depth == old(depth)
    {
      result := 0;
      ok := true;
      if depth == |stree| {
        stree := stree + [Choice(limit, 0, kind)];
      } else {
        if depth > |stree| || stree[depth].kind != kind || stree[depth].count != limit
           || stree[depth].index >= stree[depth].count {
          return false, 0;
        }
        result := stree[depth].index;
      }
      depth := depth + 1;
    }

    /** iteration_end_impl */
    method IterationEnd() returns (ok: bool, finished: bool)
      modifies this`stree
      ensures ok ==> old(depth == |stree|)
      ensures ok ==> match Next(old(stree))
                     case Some(q) => !finished && stree == q
                     case None => finished && stree == old(stree)
      ensures !ok ==>
                || old(depth != |stree|)
                || exists k :: 0 <= k < |old(stree)| && old(stree)[k].index >= old(stree)[k].count
    {
      if depth != |stree| {
        return false, false;
      }
      var i := |stree|;
      assert stree[..i] == stree;
      while i != 0
        invariant 0 <= i <= |stree| && stree == old(stree)
        invariant Next(stree[..i]) == Next(stree)
        decreases i
      {
        var n := stree[i - 1];
        assert stree[..i][..i - 1] == stree[..i - 1];
        if n.index != n.count - 1 {
          stree := stree[..i - 1] + [n.(index := n.index + 1)];
          return n.index + 1 < n.count, false;
        }
        i := i - 1;
      }
      return true, true;
    }

    /** One run of the test, from iteration_begin_impl on. */
    method Iteration(test: Test) returns (ok: bool, outcome: nat)
      requires Proper(test) && Fits(test, stree)
      modifies this
      ensures ok && depth == |stree|
      ensures stree == Complete(test, old(stree))
      ensures IsPath(test, stree) && outcome == After(test, stree).outcome
    {
      depth := 0;
      var rest := test;
      while rest.Choose?
        invariant depth <= |stree| && Fits(test, stree) && Proper(rest)
        invariant Fits(test, stree[..depth]) && rest == After(test, stree[..depth])
        invariant Complete(test, stree) == Complete(test, old(stree))
        invariant |stree| == |old(stree)| || depth == |stree|
        decreases rest
      {
        ghost var before, d := stree, depth;
        StepInto(test, stree, depth);
        var fine, k := Rand(|rest.next|, rest.kind);
        if !fine {
          assert false;
        }
        assert stree == if d < |before| then before else before + [Choice(|rest.next|, 0, rest.kind)];
        rest := rest.next[k];
      }
      assert stree == stree[..depth] + stree[depth..];
      FitsPrefix(test, stree[..depth], stree[depth..]);
      assert stree[..depth] == stree;
      CompleteOfPath(test, stree);
      return true, rest.outcome;
    }

    /** get_state_impl, after the iteration number that simulate puts in front. */
    method GetState(iter: nat) returns (s: string)
      ensures s == PrintState(iter, stree)
    {
      s := Print(iter) + " " + Print(|stree|) + " ";
      ghost var head := s;
      var i := 0;
      assert stree[0..] == stree;
      while i != |stree|
        invariant 0 <= i <= |stree|
        invariant s + PrintNodes(stree[i..]) == head + PrintNodes(stree)
        decreases |stree| - i
      {
        var n := stree[i];
        ghost var tail := PrintNodes(stree[i + 1..]);
        ghost var node := Print(n.count) + " " + Print(n.index) + " " + Print(n.kind) + " ";
        assert stree[i..][1..] == stree[i + 1..];
        assert PrintNodes(stree[i..]) == node + tail;
        assert s + (node + tail) == (s + node) + tail;
        s := s + (Print(n.count) + " " + Print(n.index) + " " + Print(n.kind) + " ");
        i := i + 1;
      }
      assert s + [] == s;
    }

    /** set_state_impl */
    method SetState(s: string)
      modifies this`stree
      ensures stree == old(stree) + ParseNodes(Parse(s).0, Parse(s).1).0
    {
      var (size, rest) := Parse(s);
      var i := 0;
      while i != size
        invariant 0 <= i <= size
        invariant stree + ParseNodes(size - i, rest).0 == old(stree) + ParseNodes(Parse(s).0, Parse(s).1).0
        decreases size - i
      {
        hide Parse;
        var (count, s1) := Parse(rest);
        var (index, s2) := Parse(s1);
        var (kind, s3) := Parse(s2);
        stree := stree + [Choice(count, index, kind)];
        rest := s3;
        i := i + 1;
      }
    }
  }

  // ---- the simulation loop

  function OutcomeOf(test: Test, p: Path): (outcome: nat)
    requires IsPath(test, p)
  {
    After(test, p).outcome
  }

  /** `visited` is the stretch of the paths of the test that begins at position j. */
  ghost predicate Stretch(test: Test, j: nat, visited: seq<Path>) {
    j + |visited| <= |Paths(test)| && visited == Paths(test)[j..j + |visited|]
  }

  /** Every iteration before the last one of `visited` succeeds. */
  ghost predicate SucceedsUpTo(test: Test, visited: seq<Path>, n: nat)
    requires Proper(test)
  {
    forall k :: 0 <= k < n && k < |visited| ==> IsPath(test, visited[k]) && OutcomeOf(test, visited[k]) == 0
  }

  /** What the iterations of one simulation were, and how it ended. */
  ghost predicate Simulated(test: Test, j: nat, visited: seq<Path>, outcome: nat)
    requires Proper(test)
  {
    && |visited| > 0 && Stretch(test, j, visited)
    && SucceedsUpTo(test, visited, |visited| - 1)
    && IsPath(test, visited[|visited| - 1]) && OutcomeOf(test, visited[|visited| - 1]) == outcome
  }

  /** simulate2: iterate until a failure or until the search is finished; `ok` is false where RL_VERIFY fails,
      which happens only when the replay of a failure succeeds. */
  method Simulate2(test: Test, sched: TreeSearch, start: nat, second: bool, ghost j: nat)
    returns (ok: bool, outcome: nat, stop: nat, ghost visited: seq<Path>)
    requires Proper(test) && Fits(test, sched.stree)
    requires j < |Paths(test)| && Complete(test, sched.stree) == Paths(test)[j]
    modifies sched
    ensures Simulated(test, j, visited, outcome) && stop + 1 == start + |visited|
    ensures ok <==> !(second && outcome == 0)
    ensures outcome != 0 ==> sched.stree == visited[|visited| - 1]
    ensures outcome == 0 && !second ==> j + |visited| == |Paths(test)|
    ensures second ==> |visited| == 1
  {
    hide Paths, Complete, Next, Fits, Proper;
    visited := [];
    stop := start;
    while true
      invariant Stretch(test, j, visited) && SucceedsUpTo(test, visited, |visited|) && stop == start + |visited|
      invariant j + |visited| < |Paths(test)| && Fits(test, sched.stree)
                && Complete(test, sched.stree) == Paths(test)[j + |visited|]
      invariant second ==> visited == []
      decreases |Paths(test)| - |visited|
    {
      ok, outcome := sched.Iteration(test);
      ghost var at := j + |visited|;
      visited := visited + [sched.stree];
      assert visited == Paths(test)[j..at + 1];
      if outcome != 0 {
        return;
      }
      if second {
        return false, outcome, stop, visited;
      }
      Odometer(test, at);
      StackInRange(test, sched.stree);
      var fine, finished := sched.IterationEnd();
      if !fine {
        assert false;
      }
      if finished {
        return true, outcome, stop, visited;
      }
      stop := stop + 1;
    }
  }

  lemma {:induction false} StackInRange(t: Test, p: Path)
    requires Fits(t, p)
    ensures forall k :: 0 <= k < |p| ==> p[k].index < p[k].count
  {
    if p != [] {
      StackInRange(t.next[p[0].index], p[1..]);
      assert p == [p[0]] + p[1..];
    }
  }

  /** Where a simulation starts: at the first path without input, or where the printed state says. */
  datatype From = Anew | From(iter: nat, stree: Path)

  ghost predicate Resumes(test: Test, input: string, from: From, j: nat)
    requires Proper(test) && j < |Paths(test)|
  {
    match from
    case Anew => input == [] && j == 0
    case From(iter, stree) =>
      input == PrintState(iter, stree) && Fits(test, stree) && Complete(test, stree) == Paths(test)[j]
  }

  /** context_impl::simulate with a new scheduler: resume from the printed state if there is one, and print the
      state of a failure unless this run is the replay. */
  method SimulateFrom(test: Test, input: string, second: bool, ghost from: From, ghost j: nat)
    returns (ok: bool, outcome: nat, stop: nat, output: string, ghost visited: seq<Path>)
    requires Proper(test) && j < |Paths(test)|
    requires Resumes(test, input, from, j)
    ensures Simulated(test, j, visited, outcome) && stop + 1 == (if from.Anew? then 1 else from.iter) + |visited|
    ensures ok <==> !(second && outcome == 0)
    ensures outcome == 0 && !second ==> j + |visited| == |Paths(test)|
    ensures outcome != 0 && !second ==> output == PrintState(stop, visited[|visited| - 1])
    ensures second ==> |visited| == 1
  {
    var sched := new TreeSearch();
    var start := 1;
    if input != [] {
      var (iter, rest) := Parse(input);
      start := iter;
      sched.SetState(rest);
      StateRoundTrip(from.iter, from.stree);
      assert sched.stree == from.stree;
    } else {
      NeverEmpty(from);
      SomePath(test);
    }
    ok, outcome, stop, visited := Simulate2(test, sched, start, second, j);
    output := [];
    if outcome != 0 && !second {
      output := sched.GetState(stop);
    }
  }

  lemma NeverEmpty(from: From)
    ensures from.From? ==> PrintState(from.iter, from.stree) != []
  {
  }

  /** The outcomes along the first n paths: only the last may be a failure. */
  ghost predicate EndsWith(test: Test, n: nat, outcome: nat)
    requires Proper(test)
  {
    && 1 <= n <= |Paths(test)|
    && IsPath(test, Paths(test)[n - 1]) && OutcomeOf(test, Paths(test)[n - 1]) == outcome
    && forall k :: 0 <= k < n - 1 ==> IsPath(test, Paths(test)[k]) && OutcomeOf(test, Paths(test)[k]) == 0
  }

  lemma SimulatedMeans(test: Test, visited: seq<Path>, outcome: nat)
    requires Proper(test) && Simulated(test, 0, visited, outcome)
    ensures EndsWith(test, |visited|, outcome) && visited == Paths(test)[..|visited|]
  {
    var n := |visited|;
    assert forall k :: 0 <= k < n ==> visited[k] == Paths(test)[k];
    hide Paths, IsPath;
  }

  /** rl::simulate: search, and replay a failure from its printed state with the history switched on. The
      checks that the replay ends the same way, at the same iteration, always hold; `replayed` is what it did. */
  method Simulate(test: Test) returns (outcome: nat, stop: nat, ghost visited: seq<Path>, ghost replayed: seq<Path>)
    requires Proper(test)
    ensures EndsWith(test, stop, outcome) && (outcome == 0 ==> stop == |Paths(test)|)
    ensures visited == Paths(test)[..stop] && replayed == if outcome == 0 then [] else [Paths(test)[stop - 1]]
  {
    SomePath(test);
    var ok, output;
    ok, outcome, stop, output, visited := SimulateFrom(test, [], false, Anew, 0);
    SimulatedMeans(test, visited, outcome);
    replayed := [];
    if outcome != 0 {
      ghost var last := visited[|visited| - 1];
      CompleteOfPath(test, last);
      var ok2, outcome2, stop2, output2;
      ok2, outcome2, stop2, output2, replayed := SimulateFrom(test, output, true, From(stop, last), |visited| - 1);
      if !ok2 || outcome2 != outcome || stop2 != stop {
        assert false;
      }
    }
  }
}
