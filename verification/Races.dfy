/** The race check is exact: var_data_impl::store and ::load report an error if and only if
    a conflicting earlier access does not happen before the new one. */
module Races {
  import opened Memory
  import opened HappensBefore
  import opened Dependencies
  import opened Exactness
  import opened Represent

  /** Before a plain operation m, the thread's clock has reached exactly what happens before m. */
  lemma ClockIsHappensBefore(c: Config, tr: Trace, m: nat, i: nat)
    requires Run(c, tr, m) && m < |tr| && Plain(tr[m]) && tr[m].t < c.threads
    requires i < m && Acts(c, tr, i)
    ensures ClockAt(c, tr, m, tr[m].t)[tr[i].t] >= Stamp(c, tr, i) <==> HB(tr, i, m)
  {
    hide Apply, Enabled;
    InvAlways(c, tr, m);
    var th := At(c, tr, m).threads[tr[m].t];
    assert ThreadRep(c, tr, m, th, tr[m].t);
    PredsPlain(tr, m);
    BelowOne(tr, m);
    assert i in Past(tr, m) <==> HB(tr, i, m);
  }

  /** The stores, or the loads, of variable v by thread u. */
  datatype Kind = Kind(isStore: bool, u: nat, v: nat)

  predicate Selects(k: Kind, e: Event) {
    if k.isStore then e.VarStore? && e.t == k.u && e.v == k.v else e.VarLoad? && e.t == k.u && e.v == k.v
  }

  /** `ts` is the latest timestamp among the accesses that `kind` selects, 0 if there is none. */
  ghost predicate Latest(c: Config, tr: Trace, m: nat, ts: nat, kind: Kind)
  {
    && (ts == 0 || exists i :: 0 <= i < m && Acts(c, tr, i) && Selects(kind, tr[i]) && Stamp(c, tr, i) == ts)
    && forall i :: 0 <= i < m && Acts(c, tr, i) && Selects(kind, tr[i]) ==> Stamp(c, tr, i) <= ts
  }

  ghost predicate VarRep(c: Config, tr: Trace, m: nat, d: Var, v: nat)
  {
    && |d.stores| == |d.loads| == c.threads
    && (forall u :: 0 <= u < c.threads ==> Latest(c, tr, m, d.stores[u], Kind(true, u, v)))
    && (forall u :: 0 <= u < c.threads ==> Latest(c, tr, m, d.loads[u], Kind(false, u, v)))
    && (d.initialized <==> exists i :: 0 <= i < m && i < |tr| && tr[i].VarStore? && tr[i].v == v)
    && (!d.initialized ==> forall i :: 0 <= i < m && i < |tr| ==> !(tr[i].VarLoad? && tr[i].v == v))
  }

  lemma LatestKeep(c: Config, tr: Trace, m: nat, ts: nat, kind: Kind)
    requires m < |tr| && Latest(c, tr, m, ts, kind) && !Selects(kind, tr[m])
    ensures Latest(c, tr, m + 1, ts, kind)
  {
    hide Stamp;
  }

  lemma LatestNew(c: Config, tr: Trace, m: nat, kind: Kind)
    requires Run(c, tr, m) && Acts(c, tr, m) && Selects(kind, tr[m])
    requires forall i :: 0 <= i < m && Acts(c, tr, i) && Selects(kind, tr[i]) ==> tr[i].t == tr[m].t
    ensures Latest(c, tr, m + 1, Stamp(c, tr, m), kind)
  {
    hide Apply, Enabled, Own, At;
    forall i | 0 <= i < m + 1 && Acts(c, tr, i) && Selects(kind, tr[i])
      ensures Stamp(c, tr, i) <= Stamp(c, tr, m)
    {
      if i < m {
        StampWithin(c, tr, m, i);
      }
    }
  }

  /** What a step does to variable v. */
  lemma VarEffect(c: Config, s: State, e: Event, v: nat)
    requires Typed(c, s) && Enabled(c, s, e) && v < c.vars
    ensures InRange(c, e)
    ensures var d, r := s.vars[v], Apply(c, s, e).vars[v];
            if e.VarLoad? && e.v == v
            then d.initialized && r == d.(loads := d.loads[e.t := s.threads[e.t].clock[e.t] + 1])
            else if e.VarStore? && e.v == v
            then r == d.(stores := d.stores[e.t := s.threads[e.t].clock[e.t] + 1], initialized := true)
            else r == d
  {
  }

  lemma VarGrows(c: Config, tr: Trace, m: nat, d: Var, r: Var, v: nat)
    requires Run(c, tr, m) && m < |tr| && InRange(c, tr[m]) && VarRep(c, tr, m, d, v)
    requires if tr[m].VarLoad? && tr[m].v == v
             then d.initialized && r == d.(loads := d.loads[tr[m].t := Stamp(c, tr, m)])
             else if tr[m].VarStore? && tr[m].v == v
             then r == d.(stores := d.stores[tr[m].t := Stamp(c, tr, m)], initialized := true)
             else r == d
    ensures VarRep(c, tr, m + 1, r, v)
  {
    hide Apply, Enabled, Latest, Stamp;
    var e := tr[m];
    forall u | 0 <= u < c.threads
      ensures Latest(c, tr, m + 1, r.stores[u], Kind(true, u, v))
      ensures Latest(c, tr, m + 1, r.loads[u], Kind(false, u, v))
    {
      if Selects(Kind(true, u, v), e) {
        LatestNew(c, tr, m, Kind(true, u, v));
      } else {
        LatestKeep(c, tr, m, d.stores[u], Kind(true, u, v));
      }
      if Selects(Kind(false, u, v), e) {
        LatestNew(c, tr, m, Kind(false, u, v));
      } else {
        LatestKeep(c, tr, m, d.loads[u], Kind(false, u, v));
      }
    }
  }

  lemma VarStep(c: Config, tr: Trace, m: nat, v: nat)
    requires Run(c, tr, m + 1) && v < c.vars && VarRep(c, tr, m, At(c, tr, m).vars[v], v)
    ensures VarRep(c, tr, m + 1, At(c, tr, m + 1).vars[v], v)
  {
    hide Apply, Enabled, VarRep;
    assert Legal(c, tr, m);
    VarEffect(c, At(c, tr, m), tr[m], v);
    VarGrows(c, tr, m, At(c, tr, m).vars[v], At(c, tr, m + 1).vars[v], v);
  }

  lemma VarInit(c: Config, tr: Trace, v: nat)
    requires v < c.vars
    ensures VarRep(c, tr, 0, Init(c).vars[v], v)
  {
  }

  lemma {:induction false} VarAlways(c: Config, tr: Trace, m: nat, v: nat)
    requires Run(c, tr, m) && v < c.vars
    ensures VarRep(c, tr, m, At(c, tr, m).vars[v], v)
  {
    hide Apply, Enabled, VarRep;
    if m == 0 {
      VarInit(c, tr, v);
    } else {
      VarAlways(c, tr, m - 1, v);
      VarStep(c, tr, m - 1, v);
    }
  }

  /** One timestamp per thread is enough: the clock covers it exactly when every selected access happens before m. */
  lemma LatestCovers(c: Config, tr: Trace, m: nat, u: nat, ts: nat, kind: Kind)
    requires Run(c, tr, m) && m < |tr| && Plain(tr[m]) && tr[m].t < c.threads && u < c.threads
    requires Latest(c, tr, m, ts, kind)
    requires forall i :: 0 <= i < m && Acts(c, tr, i) && Selects(kind, tr[i]) ==> tr[i].t == u
    ensures ClockAt(c, tr, m, tr[m].t)[u] >= ts <==>
            forall i :: 0 <= i < m && Acts(c, tr, i) && Selects(kind, tr[i]) ==> HB(tr, i, m)
  {
    hide Apply, Enabled, HB, Stamp;
    var clock := ClockAt(c, tr, m, tr[m].t);
    forall i | 0 <= i < m && Acts(c, tr, i) && Selects(kind, tr[i])
      ensures clock[u] >= Stamp(c, tr, i) <==> HB(tr, i, m)
    {
      ClockIsHappensBefore(c, tr, m, i);
    }
  }

  /** Two accesses of one variable, at least one of them a store. */
  predicate Conflict(e: Event, f: Event) {
    || (e.VarStore? && (f.VarLoad? || f.VarStore?) && e.v == f.v)
    || (e.VarLoad? && f.VarStore? && e.v == f.v)
  }

  /** Every earlier access that conflicts with m happens before it. */
  ghost predicate Ordered(tr: Trace, m: nat)
    requires m < |tr|
  {
    forall i :: 0 <= i < m && Conflict(tr[i], tr[m]) ==> HB(tr, i, m)
  }

  /** In a run every operation so far was in range. */
  lemma RunInRange(c: Config, tr: Trace, m: nat)
    requires Run(c, tr, m)
    ensures forall i :: 0 <= i < m ==> InRange(c, tr[i])
  {
    hide Apply;
    forall i | 0 <= i < m
      ensures InRange(c, tr[i])
    {
      assert Legal(c, tr, i);
    }
  }

  lemma StoreCheckExact(c: Config, tr: Trace, m: nat)
    requires Run(c, tr, m) && m < |tr| && tr[m].VarStore? && InRange(c, tr[m])
    ensures StorePasses(At(c, tr, m).threads[tr[m].t].clock, At(c, tr, m).vars[tr[m].v]) <==> Ordered(tr, m)
  {
    hide Apply, Enabled, HB, Latest, Stamp;
    var v, clock, d := tr[m].v, At(c, tr, m).threads[tr[m].t].clock, At(c, tr, m).vars[tr[m].v];
    VarAlways(c, tr, m, v);
    RunInRange(c, tr, m);
    forall u | 0 <= u < c.threads
      ensures clock[u] >= d.stores[u] <==>
                forall i :: 0 <= i < m && Acts(c, tr, i) && Selects(Kind(true, u, v), tr[i]) ==> HB(tr, i, m)
      ensures clock[u] >= d.loads[u] <==>
                forall i :: 0 <= i < m && Acts(c, tr, i) && Selects(Kind(false, u, v), tr[i]) ==> HB(tr, i, m)
    {
      LatestCovers(c, tr, m, u, d.stores[u], Kind(true, u, v));
      LatestCovers(c, tr, m, u, d.loads[u], Kind(false, u, v));
    }
    if StorePasses(clock, d) {
      forall i | 0 <= i < m && Conflict(tr[i], tr[m])
        ensures HB(tr, i, m)
      {
        assert Acts(c, tr, i) && (Selects(Kind(true, tr[i].t, v), tr[i]) || Selects(Kind(false, tr[i].t, v), tr[i]));
      }
    }
  }

  lemma LoadCheckExact(c: Config, tr: Trace, m: nat)
    requires Run(c, tr, m) && m < |tr| && tr[m].VarLoad? && InRange(c, tr[m])
    ensures LoadPasses(At(c, tr, m).threads[tr[m].t].clock, At(c, tr, m).vars[tr[m].v]) <==> Ordered(tr, m)
  {
    hide Apply, Enabled, HB, Latest, Stamp;
    var v, clock, d := tr[m].v, At(c, tr, m).threads[tr[m].t].clock, At(c, tr, m).vars[tr[m].v];
    VarAlways(c, tr, m, v);
    RunInRange(c, tr, m);
    forall u | 0 <= u < c.threads
      ensures clock[u] >= d.stores[u] <==>
                forall i :: 0 <= i < m && Acts(c, tr, i) && Selects(Kind(true, u, v), tr[i]) ==> HB(tr, i, m)
    {
      LatestCovers(c, tr, m, u, d.stores[u], Kind(true, u, v));
    }
    if LoadPasses(clock, d) {
      forall i | 0 <= i < m && Conflict(tr[i], tr[m])
        ensures HB(tr, i, m)
      {
        assert Acts(c, tr, i) && Selects(Kind(true, tr[i].t, v), tr[i]);
      }
    }
  }

  /** Main theorem: after any run, a store is accepted if and only if no earlier access races with it.
      The unchecked first store of an uninitialised variable is covered too. */
  lemma StoreAcceptedIffNoRace(c: Config, tr: Trace, m: nat)
    requires Run(c, tr, m) && m < |tr| && tr[m].VarStore? && InRange(c, tr[m])
    ensures Enabled(c, At(c, tr, m), tr[m]) <==> Ordered(tr, m)
  {
    hide Apply, HB;
    StoreCheckExact(c, tr, m);
    VarAlways(c, tr, m, tr[m].v);
  }

  /** Main theorem: a load is accepted if and only if the variable has been stored to and no earlier store races
      with it. */
  lemma LoadAcceptedIffNoRace(c: Config, tr: Trace, m: nat)
    requires Run(c, tr, m) && m < |tr| && tr[m].VarLoad? && InRange(c, tr[m])
    ensures Enabled(c, At(c, tr, m), tr[m]) <==>
            Ordered(tr, m) && exists i :: 0 <= i < m && tr[i].VarStore? && tr[i].v == tr[m].v
  {
    hide Apply, HB;
    LoadCheckExact(c, tr, m);
    VarAlways(c, tr, m, tr[m].v);
  }

  /** A run without a report has no data race at all. */
  lemma RunIsRaceFree(c: Config, tr: Trace, m: nat)
    requires Run(c, tr, m)
    ensures forall i, j :: 0 <= i < j < m && Conflict(tr[i], tr[j]) ==> HB(tr, i, j)
  {
    hide Apply, Enabled, HB;
    RunInRange(c, tr, m);
    forall i, j | 0 <= i < j < m && Conflict(tr[i], tr[j])
      ensures HB(tr, i, j)
    {
      assert Legal(c, tr, j);
      if tr[j].VarStore? {
        StoreAcceptedIffNoRace(c, tr, j);
      } else {
        LoadAcceptedIffNoRace(c, tr, j);
      }
    }
  }
}
