// What holds of every run of the scheduler, whatever the order of answers, resumptions
// and parameter changes.
module DashLaws {
  import opened Basics
  import opened Interpolate
  import opened ParamLaws
  import opened Dash
  import opened DashInvariant
  import opened DashStarts

  ghost predicate Possible(c: Config, s: State, es: seq<Event>)
    decreases |es|
  {
    es == [] || (Shaped(c, s) && Enabled(c, s, es[0]) && Possible(c, Apply(c, s, es[0]), es[1..]))
  }

  ghost function After(c: Config, s: State, es: seq<Event>): State
    requires Possible(c, s, es)
    decreases |es|
  {
    if es == [] then s else After(c, Apply(c, s, es[0]), es[1..])
  }

  lemma {:induction false} RunInv(c: Config, s: State, es: seq<Event>)
    requires Inv(c, s) && Possible(c, s, es)
    ensures Inv(c, After(c, s, es))
    decreases |es|
  {
    hide Inv, Apply, Enabled, Shaped;
    if es != [] {
      EventInv(c, s, es[0]);
      RunInv(c, Apply(c, s, es[0]), es[1..]);
    }
  }

  lemma {:induction false} Appended(c: Config, s: State, es: seq<Event>, fs: seq<Event>)
    requires Possible(c, s, es) && Possible(c, After(c, s, es), fs)
    ensures Possible(c, s, es + fs) && After(c, s, es + fs) == After(c, After(c, s, es), fs)
    decreases |es|
  {
    hide Apply, Enabled, Shaped;
    if es == [] {
      assert es + fs == fs;
    } else {
      assert (es + fs)[1..] == es[1..] + fs;
      Appended(c, Apply(c, s, es[0]), es[1..], fs);
    }
  }

  // A run from a state that satisfies the invariant.
  ghost predicate Journey(c: Config, s: State, es: seq<Event>) {
    Inv(c, s) && Possible(c, s, es) && |s.panels| == |After(c, s, es).panels| == |c.panels|
  }

  lemma JourneyOn(c: Config, s: State, es: seq<Event>)
    requires Journey(c, s, es) && es != []
    ensures Shaped(c, s) && Enabled(c, s, es[0]) && Inv(c, Apply(c, s, es[0]))
    ensures |Apply(c, s, es[0]).panels| == |c.panels| && Journey(c, Apply(c, s, es[0]), es[1..])
  {
    EventInv(c, s, es[0]);
    InvParts(c, Apply(c, s, es[0]), {});
    hide Inv, Apply, Enabled, Shaped;
  }

  lemma IsJourney(c: Config, s: State, es: seq<Event>)
    requires Inv(c, s) && Possible(c, s, es)
    ensures Journey(c, s, es)
  {
    RunInv(c, s, es);
    InvParts(c, s, {});
    InvParts(c, After(c, s, es), {});
    hide Inv, Possible, After;
  }

  // --- Agreement ---

  // The rows of p as its whole chain of sources makes them: the rows of the first panel
  // of the chain, through every transform, each with the parameters of its own run.
  function Derived(c: Config, s: State, p: nat): Option<Rows>
    requires |s.panels| == |c.panels| && p < |c.panels|
    decreases p
  {
    if !Fed(c, p) then Some(s.panels[p].rows)
    else
      var rows := Derived(c, s, Src(c, p));
      if rows.None? || !s.panels[p].outcome.Ok? then None
      else Transformed(c, p, rows.value, s.panels[p].outcome.params)
  }

  // Every fed panel of the chain has succeeded, and the boot is nowhere between a panel
  // of the chain and its source.
  predicate ChainDone(c: Config, s: State, p: nat)
    requires |s.panels| == |c.panels| && p < |c.panels|
    decreases p
  {
    Fed(c, p) ==> s.panels[p].outcome.Ok? && !BootBetween(c, s, p) && ChainDone(c, s, Src(c, p))
  }

  lemma {:induction false} ChainAgrees(c: Config, s: State, p: nat)
    requires Inv(c, s) && p < |c.panels| && ChainDone(c, s, p)
    ensures Derived(c, s, p) == Some(s.panels[p].rows)
    decreases p
  {
    if Fed(c, p) {
      assert EdgeOk(c, s, {}, p);
      hide Inv, Transformed;
      ChainAgrees(c, s, Src(c, p));
    }
  }

  // After any events at all: unless the boot is just between a panel and its source, a
  // fed panel that succeeded holds exactly its transform of its source's present rows,
  // and along a chain of such panels all agree; a query panel that succeeded
  // answers what the present parameters ask, if the search finds every name in its query.
  lemma AgreementOverAllRuns(c: Config, params: Params, es: seq<Event>, p: nat)
    requires Possible(c, Initial(c, params), es) && p < |c.panels|
    ensures var s := After(c, Initial(c, params), es);
            && |s.panels| == |c.panels|
            && (Fed(c, p) && s.panels[p].outcome.Ok? && !BootBetween(c, s, p) ==>
                  Transformed(c, p, s.panels[Src(c, p)].rows, s.panels[p].outcome.params) == Some(s.panels[p].rows))
            && (ChainDone(c, s, p) ==> Derived(c, s, p) == Some(s.panels[p].rows))
            && (Queries(c, p) && RefsMentioned(c.panels[p].query) && s.panels[p].outcome.Ok? ==>
                  s.panels[p].outcome.sql == Sql(c, s.params, p))
  {
    var s := After(c, Initial(c, params), es);
    InitialInv(c, params);
    RunInv(c, Initial(c, params), es);
    hide After, Possible, Transformed, Sql, Derived, Initial;
    assert StartedOk(c, s, p);
    assert Fed(c, p) ==> EdgeOk(c, s, {}, p);
    if ChainDone(c, s, p) {
      ChainAgrees(c, s, p);
    }
  }

  // --- Latest run only ---

  // Whatever happens, a panel's rows change only when its newest run comes back, and a
  // panel's current deferred gets settled only once its newest run has finished.
  lemma LatestRunOnly(c: Config, s: State, e: Event, p: nat)
    requires Inv(c, s) && Shaped(c, s) && Enabled(c, s, e) && p < |c.panels|
    ensures var t := Apply(c, s, e);
            && |t.panels| == |s.panels|
            && (t.panels[p].rows != s.panels[p].rows ==>
                  s.panels[p].newest in s.runs && s.runs[s.panels[p].newest].panel == p && Settles(e, s.panels[p].newest))
            && (t.panels[p].loaded in t.settled ==> t.panels[p].loaded in s.settled || Finished(t.panels[p].outcome))
  {
    if e.Resume? || e.Answer? || e.Fault? {
      var rows, o := ComesBack(c, s, e, e.r);
      assert RunOk(c, s, e.r, s.runs[e.r]);
      assert forall q :: 0 <= q < |s.panels| && q != p ==> s.panels[q].loaded != s.panels[p].loaded;
      assert Finished(o);
      hide Apply, Enabled, Shaped, Inv, Settle, Reports;
      SettleFrame(s, e.r, rows, o);
    } else {
      InvNumbered(c, s);
      var started := EventStarts(c, s, e);
      hide Apply, Enabled, Shaped, Inv, Together, BootStarts;
      assert StartsPanel(c, s, Apply(c, s, e), started, p);
    }
  }
}
