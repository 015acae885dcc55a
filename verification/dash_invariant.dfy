// What every event of the scheduler keeps.
module DashInvariant {
  import opened Basics
  import opened Interpolate
  import opened ParamLaws
  import opened Dash

  // The first panel the boot has still to start.
  function BootIndex(c: Config, s: State): nat {
    match s.boot
    case NotStarted => 0
    case Waiting(next, _) => next
    case AllStarted => |c.panels|
  }

  predicate Finished(o: Outcome) {
    o.Ok? || o.Failed?
  }

  // The invariant is stated for the moments between two starts of one turn: panels in
  // todo are about to start, and are exempt from what a start establishes.

  ghost predicate Deferreds(s: State) {
    && (forall p :: 0 <= p < |s.panels| ==> s.panels[p].loaded < s.nextDeferred)
    && (forall p, q :: 0 <= p < q < |s.panels| ==> s.panels[p].loaded != s.panels[q].loaded)
    && (forall p :: 0 <= p < |s.panels| ==> (s.panels[p].unresolved <==> s.panels[p].loaded !in s.settled))
    && (forall d :: d in s.settled ==> d < s.nextDeferred)
  }

  ghost predicate RunOk(c: Config, s: State, r: nat, run: Run)
    requires |s.panels| == |c.panels|
  {
    && r < s.nextRun && run.panel < |c.panels|
    && run.epoch <= s.panels[run.panel].epoch
    && (if run.AwaitSource? then Fed(c, run.panel) else Queries(c, run.panel))
    && (Newest(s, run) <==> s.panels[run.panel].newest == r)
    && !s.panels[run.panel].outcome.Idle?
    && (run.AwaitSource? ==> OwnDeferred(c, s, run))
  }

  // Of the deferreds now current, a run awaits at most its own source's.
  ghost predicate OwnDeferred(c: Config, s: State, run: Run)
    requires |s.panels| == |c.panels| && run.panel < |c.panels| && run.AwaitSource?
  {
    && run.deferred < s.nextDeferred
    && forall q :: 0 <= q < |s.panels| && q != Src(c, run.panel) ==> run.deferred != s.panels[q].loaded
  }

  ghost predicate Runs(c: Config, s: State)
    requires |s.panels| == |c.panels|
  {
    forall r :: r in s.runs ==> RunOk(c, s, r, s.runs[r])
  }

  // A panel is pending exactly while its newest run is suspended.
  ghost predicate PendingOk(c: Config, s: State, p: nat)
    requires |s.panels| == |c.panels| && p < |s.panels|
  {
    var ps := s.panels[p];
    && ps.newest < s.nextRun
    && (ps.outcome.Pending? <==> ps.newest in s.runs)
    && (ps.newest in s.runs ==> s.runs[ps.newest].panel == p)
    && (Finished(ps.outcome) && (c.panels[p].source != "" && !Fed(c, p)) ==> ps.outcome.Failed?)
    && (ps.outcome.Pending? ==> Fed(c, p) || Queries(c, p))
  }

  ghost predicate Pendings(c: Config, s: State)
    requires |s.panels| == |c.panels|
  {
    forall p :: 0 <= p < |s.panels| ==> PendingOk(c, s, p)
  }

  // The newest run of a fed panel awaits its source's current deferred; the newest run
  // of a query panel asked what the present parameters ask, if the search can see its
  // placeholders; a finished panel's deferred is resolved.
  ghost predicate StartedOk(c: Config, s: State, p: nat)
    requires |s.panels| == |c.panels| && p < |s.panels|
  {
    var ps := s.panels[p];
    && (ps.outcome.Pending? && Fed(c, p) && ps.newest in s.runs && s.runs[ps.newest].AwaitSource? ==>
          s.runs[ps.newest].deferred == s.panels[Src(c, p)].loaded)
    && (ps.outcome.Pending? && Queries(c, p) && ps.newest in s.runs && s.runs[ps.newest].AwaitFetch? ==>
          ps.sql == Some(s.runs[ps.newest].sql))
    && (!ps.outcome.Idle? && Queries(c, p) && RefsMentioned(c.panels[p].query) ==> ps.sql == Sql(c, s.params, p))
    && (ps.outcome.Ok? && Queries(c, p) ==> ps.sql == ps.outcome.sql && ps.sql.Some?)
    && (Finished(ps.outcome) ==> !ps.unresolved)
    && (ps.outcome.Pending? && !ps.unresolved ==> s.boot == Waiting(p + 1, ps.newest))
  }

  ghost predicate Starteds(c: Config, s: State, todo: set<nat>)
    requires |s.panels| == |c.panels|
  {
    forall p :: 0 <= p < |s.panels| && p !in todo ==> StartedOk(c, s, p)
  }

  ghost predicate InFlux(s: State, todo: set<nat>, p: nat)
    requires p < |s.panels|
  {
    s.panels[p].outcome.Pending? || p in todo
  }

  // The boot has started the panel's source, and will still start the panel itself.
  predicate BootBetween(c: Config, s: State, p: nat)
    requires p < |c.panels|
  {
    Src(c, p) < BootIndex(c, s) <= p
  }

  // A fed panel and its source: while the source is about to change, the fed panel has
  // not finished, or the boot is between the two; otherwise, once it has finished well,
  // it holds the transform of the source's rows.
  ghost predicate EdgeOk(c: Config, s: State, todo: set<nat>, p: nat)
    requires |s.panels| == |c.panels| && p < |s.panels| && Fed(c, p)
  {
    var ps, src := s.panels[p], Src(c, p);
    && (!ps.outcome.Idle? ==> !s.panels[src].outcome.Idle? || src in todo)
    && (InFlux(s, todo, src) && Finished(ps.outcome) ==> BootBetween(c, s, p))
    && (ps.outcome.Ok? && !BootBetween(c, s, p) ==>
          Transformed(c, p, s.panels[src].rows, ps.outcome.params) == Some(ps.rows))
  }

  ghost predicate Edges(c: Config, s: State, todo: set<nat>)
    requires |s.panels| == |c.panels|
  {
    forall p :: 0 <= p < |s.panels| && p !in todo && Fed(c, p) ==> EdgeOk(c, s, todo, p)
  }

  ghost predicate Booted(c: Config, s: State, todo: set<nat>)
    requires |s.panels| == |c.panels|
  {
    && BootIndex(c, s) <= |c.panels|
    && (forall p :: 0 <= p < BootIndex(c, s) && p !in todo ==> !s.panels[p].outcome.Idle?)
  }

  ghost predicate InvWhile(c: Config, s: State, todo: set<nat>) {
    && |s.panels| == |c.panels|
    && Deferreds(s) && Runs(c, s) && Pendings(c, s)
    && Starteds(c, s, todo) && Edges(c, s, todo) && Booted(c, s, todo)
  }

  ghost predicate Untouched(s: State) {
    s.runs == map[] && forall p :: 0 <= p < |s.panels| ==> s.panels[p].outcome.Idle? && s.panels[p].unresolved
  }

  ghost predicate Inv(c: Config, s: State) {
    InvWhile(c, s, {}) && (s.boot.NotStarted? ==> Untouched(s))
  }

  lemma InitialInv(c: Config, params: Params)
    ensures Inv(c, Initial(c, params))
  {
  }

  // --- Starting a run ---

  // What a start changes: its panel, and at most one new suspended run.
  lemma StartRunFrame(c: Config, s: State, p: nat)
    requires |s.panels| == |c.panels| && p < |c.panels| && Deferreds(s)
    ensures var t := StartRun(c, s, p);
            && |t.panels| == |s.panels|
            && t.boot == s.boot && t.params == s.params && t.nextRun == s.nextRun + 1
            && (forall q :: 0 <= q < |s.panels| && q != p ==> t.panels[q] == s.panels[q])
            && t.panels[p].rows == s.panels[p].rows && t.panels[p].newest == s.nextRun
            && t.panels[p].epoch == s.panels[p].epoch + 1
            && !t.panels[p].outcome.Idle?
            && Deferreds(t)
  {
    hide Sql, Fed;
  }

  // A start leaves all deferreds where they are, and its run awaits its own source's.
  lemma StartRunAdds(c: Config, s: State, p: nat)
    requires |s.panels| == |c.panels| && p < |c.panels|
    ensures var t, launch := StartRun(c, s, p), Launched(c, s, p);
            && t.nextDeferred == s.nextDeferred
            && (forall q :: 0 <= q < |s.panels| ==> t.panels[q].loaded == s.panels[q].loaded)
            && (forall d :: d in t.settled && d !in s.settled ==> d == s.panels[p].loaded)
            && (if launch.Suspend? then t.panels[p].outcome.Pending? && t.settled == s.settled else Finished(t.panels[p].outcome))
            && (Fed(c, p) ==> launch.Suspend?)
            && (if launch.Done? then t.runs == s.runs else t.runs == s.runs[s.nextRun := launch.run])
            && (launch.Suspend? ==>
                  && launch.run.panel == p && launch.run.epoch == s.panels[p].epoch + 1
                  && if launch.run.AwaitSource? then Fed(c, p) && launch.run.deferred == s.panels[Src(c, p)].loaded
                     else Queries(c, p))
            && (launch.Done? && c.panels[p].source != "" && !Fed(c, p) ==> t.panels[p].outcome.Failed?)
  {
    hide Sql;
  }

  lemma StartRunRuns(c: Config, s: State, p: nat, todo: set<nat>)
    requires InvWhile(c, s, todo) && p in todo && p < |c.panels|
    ensures Runs(c, StartRun(c, s, p))
  {
    var t := StartRun(c, s, p);
    StartRunFrame(c, s, p);
    StartRunAdds(c, s, p);
    assert Fed(c, p) ==> OwnDeferred(c, s, AwaitSource(p, s.panels[p].epoch + 1, s.panels[Src(c, p)].loaded));
    SameDeferreds(c, s, t);
    hide StartRun, Launched, Pendings, Starteds, Edges, Deferreds, Booted, Fed, Queries, Src, OwnDeferred;
    forall r | r in t.runs
      ensures RunOk(c, t, r, t.runs[r])
    {
      assert r in s.runs ==> RunOk(c, s, r, s.runs[r]);
    }
  }

  lemma SameDeferreds(c: Config, s: State, t: State)
    requires |s.panels| == |t.panels| == |c.panels| && t.nextDeferred == s.nextDeferred
    requires forall q :: 0 <= q < |s.panels| ==> t.panels[q].loaded == s.panels[q].loaded
    ensures forall run: Run :: run.AwaitSource? && run.panel < |c.panels| && OwnDeferred(c, s, run) ==> OwnDeferred(c, t, run)
  {
    hide Src;
  }

  lemma StartRunPendings(c: Config, s: State, p: nat, todo: set<nat>)
    requires InvWhile(c, s, todo) && p in todo && p < |c.panels|
    ensures Pendings(c, StartRun(c, s, p))
  {
    var t := StartRun(c, s, p);
    StartRunFrame(c, s, p);
    StartRunAdds(c, s, p);
    hide StartRun, Launched, Starteds, Edges, Deferreds, Booted, OwnDeferred;
    forall q | 0 <= q < |t.panels|
      ensures PendingOk(c, t, q)
    {
      assert PendingOk(c, s, q);
      assert s.panels[q].newest in s.runs ==> RunOk(c, s, s.panels[q].newest, s.runs[s.panels[q].newest]);
    }
  }

  lemma StartRunStarteds(c: Config, s: State, p: nat, todo: set<nat>)
    requires InvWhile(c, s, todo) && p in todo && p < |c.panels|
    requires s.panels[p].unresolved || s.boot == Waiting(p + 1, s.nextRun)
    ensures Starteds(c, StartRun(c, s, p), todo - {p})
  {
    hide Sql, Transformed, Edges, Deferreds, Booted, Runs;
    var t := StartRun(c, s, p);
    forall q | 0 <= q < |t.panels| && q !in todo - {p}
      ensures StartedOk(c, t, q)
    {
      assert q != p ==> StartedOk(c, s, q) && PendingOk(c, s, q);
    }
  }

  // A fed panel starts only when its source has started or is about to.
  ghost predicate SourceReady(c: Config, s: State, todo: set<nat>, p: nat)
    requires |s.panels| == |c.panels| && p < |c.panels|
  {
    Fed(c, p) ==> !s.panels[Src(c, p)].outcome.Idle? || Src(c, p) in todo
  }

  lemma StartRunEdges(c: Config, s: State, p: nat, todo: set<nat>)
    requires InvWhile(c, s, todo) && p in todo && p < |c.panels| && SourceReady(c, s, todo, p)
    ensures Edges(c, StartRun(c, s, p), todo - {p})
  {
    var t := StartRun(c, s, p);
    StartRunFrame(c, s, p);
    assert Fed(c, p) ==> t.panels[p].outcome.Pending?;
    assert BootIndex(c, t) == BootIndex(c, s);
    hide Sql, Transformed, Starteds, Deferreds, Booted, Runs, StartRun;
    forall q | 0 <= q < |t.panels| && q !in todo - {p} && Fed(c, q)
      ensures EdgeOk(c, t, todo - {p}, q)
    {
      if q != p {
        assert EdgeOk(c, s, todo, q);
        assert t.panels[Src(c, q)].rows == s.panels[Src(c, q)].rows;
        assert InFlux(t, todo - {p}, Src(c, q)) ==> InFlux(s, todo, Src(c, q));
      }
    }
  }

  lemma StartRunInv(c: Config, s: State, p: nat, todo: set<nat>)
    requires InvWhile(c, s, todo) && p in todo && p < |c.panels|
    requires s.panels[p].unresolved || s.boot == Waiting(p + 1, s.nextRun)
    requires SourceReady(c, s, todo, p)
    ensures InvWhile(c, StartRun(c, s, p), todo - {p})
  {
    StartRunFrame(c, s, p);
    StartRunRuns(c, s, p, todo);
    StartRunPendings(c, s, p, todo);
    StartRunStarteds(c, s, p, todo);
    StartRunEdges(c, s, p, todo);
    hide StartRun, Edges, Starteds, Runs, Pendings;
  }

  lemma SourceStaysReady(c: Config, s: State, t: State, started: seq<nat>, todo: set<nat>, p: nat)
    requires |s.panels| == |t.panels| == |c.panels| && p < |c.panels| && SourceReady(c, s, todo, p)
    requires forall q :: 0 <= q < |s.panels| && q !in started ==> t.panels[q] == s.panels[q]
    requires forall q :: q in started && q < |t.panels| ==> !t.panels[q].outcome.Idle?
    ensures SourceReady(c, t, todo - Elements(started), p)
  {
  }

  // What starting a list of panels from s leads to.
  ghost predicate StartedFrom(c: Config, s: State, order: seq<nat>, todo: set<nat>, t: State) {
    && |s.panels| == |c.panels| && InvWhile(c, t, todo - Elements(order))
    && t.boot == s.boot && t.params == s.params
    && (forall q :: 0 <= q < |s.panels| && q !in order ==> t.panels[q] == s.panels[q])
    && (forall q :: q in order && q < |t.panels| ==> !t.panels[q].outcome.Idle?)
  }

  lemma StartOneMore(c: Config, s: State, order: seq<nat>, p: nat, todo: set<nat>, t: State)
    requires StartedFrom(c, s, order, todo, t) && p in todo && p !in order && p < |c.panels|
    requires s.panels[p].unresolved && SourceReady(c, s, todo, p)
    ensures StartedFrom(c, s, order + [p], todo, StartRun(c, t, p))
  {
    InvParts(c, t, todo - Elements(order));
    hide InvWhile, Deferreds;
    SourceStaysReady(c, s, t, order, todo, p);
    StartRunFrame(c, t, p);
    StartRunInv(c, t, p, todo - Elements(order));
    hide StartRun;
    assert Elements(order + [p]) == Elements(order) + {p};
    assert todo - Elements(order) - {p} == todo - Elements(order + [p]);
  }

  // Starting a whole list, each panel once and each with an unresolved deferred.
  lemma {:induction false} StartAllInv(c: Config, s: State, order: seq<nat>, todo: set<nat>)
    requires InvWhile(c, s, todo) && Distinct(order, |c.panels|) && Elements(order) <= todo
    requires forall i :: 0 <= i < |order| ==> s.panels[order[i]].unresolved && SourceReady(c, s, todo, order[i])
    ensures |s.panels| == |c.panels| && StartedFrom(c, s, order, todo, StartAll(c, s, order))
    decreases |order|
  {
    InvParts(c, s, todo);
    hide StartRun, InvWhile, SourceReady, Deferreds;
    if order == [] {
      assert todo - Elements(order) == todo;
    } else {
      var init, p := order[..|order| - 1], order[|order| - 1];
      assert order == init + [p];
      assert p in Elements(order);
      assert Elements(init) <= Elements(order);
      StartAllInv(c, s, init, todo);
      hide StartedFrom;
      StartOneMore(c, s, init, p, todo, StartAll(c, s, init));
    }
  }

  lemma InvParts(c: Config, s: State, todo: set<nat>)
    requires InvWhile(c, s, todo)
    ensures |s.panels| == |c.panels| && Deferreds(s) && Shaped(c, s) && BootIndex(c, s) <= |c.panels|
    ensures forall p :: 0 <= p < BootIndex(c, s) && p !in todo ==> !s.panels[p].outcome.Idle?
  {
    forall r | r in s.runs
      ensures s.runs[r].panel < |c.panels| && (s.runs[r].AwaitSource? ==> Fed(c, s.runs[r].panel))
    {
      assert RunOk(c, s, r, s.runs[r]);
    }
  }

  // --- Installing fresh deferreds ---

  lemma InstallInv(c: Config, s: State, p: nat, todo: set<nat>)
    requires InvWhile(c, s, todo) && p in todo && p < |c.panels| && ClosedUnder(c, todo)
    ensures InvWhile(c, Install(s, p), todo)
  {
    var t := Install(s, p);
    assert Runs(c, t) by {
      forall r | r in t.runs
        ensures RunOk(c, t, r, t.runs[r])
      {
        assert RunOk(c, s, r, s.runs[r]);
      }
    }
    assert Pendings(c, t) by {
      forall q | 0 <= q < |t.panels|
        ensures PendingOk(c, t, q)
      {
        assert PendingOk(c, s, q);
      }
    }
    assert Starteds(c, t, todo) by {
      forall q | 0 <= q < |t.panels| && q !in todo
        ensures StartedOk(c, t, q)
      {
        assert StartedOk(c, s, q);
      }
    }
    assert Edges(c, t, todo) by {
      forall q | 0 <= q < |t.panels| && q !in todo && Fed(c, q)
        ensures EdgeOk(c, t, todo, q)
      {
        assert EdgeOk(c, s, todo, q);
      }
    }
  }

  lemma {:induction false} InstallAllInv(c: Config, s: State, order: seq<nat>, todo: set<nat>)
    requires InvWhile(c, s, todo) && Distinct(order, |c.panels|) && Elements(order) <= todo && ClosedUnder(c, todo)
    ensures |s.panels| == |c.panels|
    ensures var t := InstallAll(s, order);
            && InvWhile(c, t, todo) && t.boot == s.boot && t.params == s.params
            && (forall i :: 0 <= i < |order| ==> t.panels[order[i]].unresolved)
    decreases |order|
  {
    InvParts(c, s, todo);
    hide InvWhile;
    if order != [] {
      var init, p := order[..|order| - 1], order[|order| - 1];
      assert p in Elements(order);
      assert Elements(init) <= Elements(order);
      InstallAllInv(c, s, init, todo);
      InstallInv(c, InstallAll(s, init), p, todo);
      var t := InstallAll(s, order);
      forall i | 0 <= i < |order|
        ensures t.panels[order[i]].unresolved
      {
        assert i < |init| ==> order[i] == init[i];
      }
    }
  }

  // --- A run comes back ---

  // What a run may report: a failure; the transform of its source's rows; or an answer to
  // what it asked.
  ghost predicate Reports(c: Config, s: State, r: nat, rows: Rows, o: Outcome)
    requires |s.panels| == |c.panels| && r in s.runs && s.runs[r].panel < |c.panels|
  {
    var run := s.runs[r];
    && Finished(o)
    && (run.AwaitSource? ==> run.deferred in s.settled && Src(c, run.panel) < |s.panels|)
    && (run.AwaitSource? && o.Ok? ==> Transformed(c, run.panel, s.panels[Src(c, run.panel)].rows, o.params) == Some(rows))
    && (run.AwaitFetch? && o.Ok? ==> o.sql == Some(run.sql))
  }

  predicate Settles(e: Event, r: nat) {
    (e.Resume? || e.Answer? || e.Fault?) && e.r == r
  }

  // Whichever way run r comes back, it is settled with some report.
  lemma ComesBack(c: Config, s: State, e: Event, r: nat) returns (rows: Rows, o: Outcome)
    requires Shaped(c, s) && Enabled(c, s, e) && Settles(e, r)
    ensures r in s.runs && s.runs[r].panel < |s.panels|
    ensures Reports(c, s, r, rows, o) && Apply(c, s, e) == Settle(s, r, rows, o)
  {
    hide Settle, Transformed;
    var p := s.runs[r].panel;
    match e
    case Resume(_) =>
      var out := Transformed(c, p, s.panels[Src(c, p)].rows, s.params);
      if out.None? {
        rows, o := s.panels[p].rows, Failed;
      } else {
        rows, o := out.value, Ok(None, s.params);
      }
    case Answer(_, answered, renders) =>
      rows, o := answered, if renders then Ok(Some(s.runs[r].sql), s.params) else Failed;
    case Fault(_) =>
      rows, o := s.panels[p].rows, Failed;
  }

  // What a run coming back leaves: all but its own panel, and that too unless it is newest.
  lemma SettleFrame(s: State, r: nat, rows: Rows, o: Outcome)
    requires r in s.runs && s.runs[r].panel < |s.panels|
    ensures var t, p := Settle(s, r, rows, o), s.runs[r].panel;
            && |t.panels| == |s.panels| && t == s.(panels := t.panels, runs := s.runs - {r}, settled := t.settled)
            && (forall q :: 0 <= q < |s.panels| ==>
                  t.panels[q].loaded == s.panels[q].loaded && t.panels[q].newest == s.panels[q].newest)
            && (forall q :: 0 <= q < |s.panels| && (q != p || !Newest(s, s.runs[r])) ==> t.panels[q] == s.panels[q])
            && (Newest(s, s.runs[r]) ==> t.panels[p].rows == rows && t.panels[p].outcome == o)
            && s.settled <= t.settled <= s.settled + (if Newest(s, s.runs[r]) then {s.panels[p].loaded} else {})
  {
  }

  lemma SettleInv(c: Config, s: State, r: nat, rows: Rows, o: Outcome)
    requires Inv(c, s) && r in s.runs && s.runs[r].panel < |c.panels| && Reports(c, s, r, rows, o)
    ensures Inv(c, Settle(s, r, rows, o))
  {
    SettleRuns(c, s, r, rows, o);
    SettleStarteds(c, s, r, rows, o);
    SettleEdges(c, s, r, rows, o);
    SettleDeferreds(c, s, r, rows, o);
    hide Runs, Pendings, Starteds, Edges, Deferreds;
  }

  lemma SettleDeferreds(c: Config, s: State, r: nat, rows: Rows, o: Outcome)
    requires Inv(c, s) && r in s.runs && s.runs[r].panel < |c.panels|
    requires Finished(o)
    ensures Deferreds(Settle(s, r, rows, o)) && Booted(c, Settle(s, r, rows, o), {})
  {
    hide Runs, Pendings, Starteds, Edges;
  }

  lemma SettleRuns(c: Config, s: State, r: nat, rows: Rows, o: Outcome)
    requires Inv(c, s) && r in s.runs && s.runs[r].panel < |c.panels| && Reports(c, s, r, rows, o)
    ensures Runs(c, Settle(s, r, rows, o)) && Pendings(c, Settle(s, r, rows, o))
  {
    hide Starteds, Edges, Deferreds, Booted, Transformed, OwnDeferred;
    var t := Settle(s, r, rows, o);
    assert RunOk(c, s, r, s.runs[r]);
    SameDeferreds(c, s, t);
    forall q | q in t.runs
      ensures RunOk(c, t, q, t.runs[q])
    {
      assert RunOk(c, s, q, s.runs[q]);
    }
    forall q | 0 <= q < |t.panels|
      ensures PendingOk(c, t, q)
    {
      assert PendingOk(c, s, q);
    }
  }

  lemma SettleStarteds(c: Config, s: State, r: nat, rows: Rows, o: Outcome)
    requires Inv(c, s) && r in s.runs && s.runs[r].panel < |c.panels| && Reports(c, s, r, rows, o)
    ensures Starteds(c, Settle(s, r, rows, o), {})
  {
    hide Edges, Deferreds, Booted, Transformed, Sql;
    var t := Settle(s, r, rows, o);
    assert RunOk(c, s, r, s.runs[r]);
    forall q | 0 <= q < |t.panels|
      ensures StartedOk(c, t, q)
    {
      assert StartedOk(c, s, q) && PendingOk(c, s, q);
    }
  }

  // A source still pending behind a settled deferred is the run the boot awaits.
  lemma SourceSettled(c: Config, s: State, r: nat)
    requires Inv(c, s) && r in s.runs && s.runs[r].panel < |c.panels| && Newest(s, s.runs[r])
    requires s.runs[r].AwaitSource? && s.runs[r].deferred in s.settled
    ensures var p := s.runs[r].panel;
            Fed(c, p) && (s.panels[Src(c, p)].outcome.Pending? ==> BootBetween(c, s, p))
  {
    var p := s.runs[r].panel;
    assert RunOk(c, s, r, s.runs[r]);
    assert PendingOk(c, s, p) && StartedOk(c, s, p) && StartedOk(c, s, Src(c, p));
    assert !s.panels[Src(c, p)].unresolved;
  }

  lemma SettleEdges(c: Config, s: State, r: nat, rows: Rows, o: Outcome)
    requires Inv(c, s) && r in s.runs && s.runs[r].panel < |c.panels| && Reports(c, s, r, rows, o)
    ensures Edges(c, Settle(s, r, rows, o), {})
  {
    var t := Settle(s, r, rows, o);
    var p := s.runs[r].panel;
    assert RunOk(c, s, r, s.runs[r]);
    assert PendingOk(c, s, p);
    if Newest(s, s.runs[r]) && Fed(c, p) {
      SourceSettled(c, s, r);
    }
    assert BootIndex(c, t) == BootIndex(c, s);
    hide Sql, Deferreds, Booted, Transformed, Runs, Pendings, Starteds;
    forall q | 0 <= q < |t.panels| && Fed(c, q)
      ensures EdgeOk(c, t, {}, q)
    {
      assert EdgeOk(c, s, {}, q);
    }
  }

  // --- The boot ---

  lemma BootAtInv(c: Config, s: State)
    requires Inv(c, s) && BootIndex(c, s) <= |c.panels| && !s.boot.AllStarted?
    requires s.boot.Waiting? ==> s.boot.run !in s.runs
    ensures Inv(c, BootAt(c, s, BootIndex(c, s)))
  {
    var next := BootIndex(c, s);
    if next == |c.panels| {
      BootDoneInv(c, s);
    } else {
      var t := s.(boot := Waiting(next + 1, s.nextRun));
      BootMovesInv(c, s, t);
      assert SourceReady(c, t, {next}, next) by {
        hide InvWhile;
        InvParts(c, s, {});
      }
      assert t.panels[next].unresolved || t.boot == Waiting(next + 1, t.nextRun);
      InvParts(c, t, {next});
      hide StartRun, InvWhile, SourceReady;
      StartRunFrame(c, t, next);
      StartRunInv(c, t, next, {next});
      assert {next} - {next} == {};
    }
  }

  // No run the boot awaits is left, so no panel is pending behind a settled deferred.
  lemma NothingBehindSettled(c: Config, s: State)
    requires Inv(c, s) && (s.boot.Waiting? ==> s.boot.run !in s.runs)
    ensures forall p :: 0 <= p < |s.panels| && s.panels[p].outcome.Pending? ==> s.panels[p].unresolved
  {
    forall p | 0 <= p < |s.panels| && s.panels[p].outcome.Pending?
      ensures s.panels[p].unresolved
    {
      assert StartedOk(c, s, p) && PendingOk(c, s, p);
    }
  }

  lemma BootMovesInv(c: Config, s: State, t: State)
    requires Inv(c, s) && !s.boot.AllStarted? && BootIndex(c, s) < |c.panels|
    requires s.boot.Waiting? ==> s.boot.run !in s.runs
    requires t == s.(boot := Waiting(BootIndex(c, s) + 1, s.nextRun))
    ensures InvWhile(c, t, {BootIndex(c, s)})
  {
    var next := BootIndex(c, s);
    NothingBehindSettled(c, s);
    hide Transformed, Sql;
    forall r | r in t.runs
      ensures RunOk(c, t, r, t.runs[r])
    {
      assert RunOk(c, s, r, s.runs[r]);
    }
    forall q | 0 <= q < |t.panels|
      ensures PendingOk(c, t, q)
    {
      assert PendingOk(c, s, q);
    }
    forall q | 0 <= q < |t.panels| && q !in {next}
      ensures StartedOk(c, t, q)
    {
      assert StartedOk(c, s, q);
    }
    forall q | 0 <= q < |t.panels| && q !in {next} && Fed(c, q)
      ensures EdgeOk(c, t, {next}, q)
    {
      assert EdgeOk(c, s, {}, q);
    }
  }

  lemma BootDoneInv(c: Config, s: State)
    requires Inv(c, s) && !s.boot.AllStarted? && BootIndex(c, s) == |c.panels|
    requires s.boot.Waiting? ==> s.boot.run !in s.runs
    ensures Inv(c, s.(boot := AllStarted))
  {
    var t := s.(boot := AllStarted);
    NothingBehindSettled(c, s);
    hide Transformed, Sql;
    forall r | r in t.runs
      ensures RunOk(c, t, r, t.runs[r])
    {
      assert RunOk(c, s, r, s.runs[r]);
    }
    forall q | 0 <= q < |t.panels|
      ensures PendingOk(c, t, q)
    {
      assert PendingOk(c, s, q);
    }
    forall q | 0 <= q < |t.panels|
      ensures StartedOk(c, t, q)
    {
      assert StartedOk(c, s, q);
    }
    forall q | 0 <= q < |t.panels| && Fed(c, q)
      ensures EdgeOk(c, t, {}, q)
    {
      assert EdgeOk(c, s, {}, q);
    }
  }

  // --- The closure of a re-run ---

  lemma {:induction false} SweepWithin(c: Config, affected: seq<nat>, i: nat, other: set<nat>)
    requires i <= |c.panels| && ClosedUnder(c, other) && Elements(affected) <= other
    ensures Elements(Sweep(c, affected, i)) <= other
    decreases |c.panels| - i
  {
    if i < |c.panels| {
      if Joins(c, affected, i) {
        assert Src(c, i) in Elements(affected);
        assert Elements(affected + [i]) == Elements(affected) + {i};
        SweepWithin(c, affected + [i], i + 1, other);
      } else {
        SweepWithin(c, affected, i + 1, other);
      }
    }
  }

  // A sweep that adds nothing found nothing to add.
  lemma {:induction false} SweepFixpoint(c: Config, affected: seq<nat>, i: nat)
    requires i <= |c.panels|
    ensures |Sweep(c, affected, i)| >= |affected|
    ensures |Sweep(c, affected, i)| == |affected| ==> forall p :: i <= p < |c.panels| ==> !Joins(c, affected, p)
    decreases |c.panels| - i
  {
    if i < |c.panels| {
      SweepFixpoint(c, if Joins(c, affected, i) then affected + [i] else affected, i + 1);
    }
  }

  // Whatever a sweep adds has its source among the affected.
  ghost predicate Justified(c: Config, base: seq<nat>, order: seq<nat>) {
    forall p :: p in order && p !in base ==> p < |c.panels| && c.panels[p].source != "" && Src(c, p) in order
  }

  lemma {:induction false} SweepJustified(c: Config, base: seq<nat>, affected: seq<nat>, i: nat)
    requires i <= |c.panels| && Justified(c, base, affected)
    ensures Justified(c, base, Sweep(c, affected, i))
    decreases |c.panels| - i
  {
    hide Justified, Joins;
    if i < |c.panels| {
      if Joins(c, affected, i) {
        JoinJustified(c, base, affected, i);
      }
      SweepJustified(c, base, if Joins(c, affected, i) then affected + [i] else affected, i + 1);
    }
  }

  lemma JoinJustified(c: Config, base: seq<nat>, affected: seq<nat>, i: nat)
    requires i < |c.panels| && Justified(c, base, affected) && Joins(c, affected, i)
    ensures Justified(c, base, affected + [i])
  {
    hide Src;
  }

  lemma {:induction false} SweepsClosure(c: Config, base: seq<nat>, affected: seq<nat>)
    requires Distinct(affected, |c.panels|) && Justified(c, base, affected)
    ensures affected <= Sweeps(c, affected)
    ensures ClosedUnder(c, Elements(Sweeps(c, affected)))
    ensures forall other: set<nat> :: ClosedUnder(c, other) && Elements(affected) <= other ==> Elements(Sweeps(c, affected)) <= other
    ensures Justified(c, base, Sweeps(c, affected))
    decreases |c.panels| - |affected|
  {
    var r := Sweep(c, affected, 0);
    SweepFixpoint(c, affected, 0);
    SweepJustified(c, base, affected, 0);
    forall other: set<nat> | ClosedUnder(c, other) && Elements(affected) <= other
      ensures Elements(r) <= other
    {
      SweepWithin(c, affected, 0, other);
    }
    if |r| == |affected| {
      assert r == affected;
      forall p | 0 <= p < |c.panels| && c.panels[p].source != "" && Src(c, p) in Elements(r)
        ensures p in Elements(r)
      {
        assert !Joins(c, r, p);
      }
    } else {
      SweepDistinct(c, affected, 0);
      DistinctBounded(r, |c.panels|);
      SweepsClosure(c, base, r);
    }
  }

  // The panels a change re-runs are the least set that holds the directly affected ones
  // and every consumer of its members.
  lemma RerunIsLeastClosure(c: Config, name: string)
    ensures IsLeastClosure(c, name, Elements(RerunOrder(c, name)))
    ensures Justified(c, DirectFrom(c, name, 0), RerunOrder(c, name))
  {
    var direct := DirectFrom(c, name, 0);
    DirectDistinct(c, name, 0);
    SweepsClosure(c, direct, direct);
  }

  // When every source precedes its consumers, the first sweep finds them all.
  lemma OneSweepSuffices(c: Config, name: string)
    requires forall p :: 0 <= p < |c.panels| && Src(c, p) < |c.panels| ==> Src(c, p) < p
    ensures RerunOrder(c, name) == Sweep(c, DirectFrom(c, name, 0), 0)
  {
    var direct := DirectFrom(c, name, 0);
    DirectDistinct(c, name, 0);
    var r := Sweep(c, direct, 0);
    OrderedSweepCloses(c, direct, 0);
    SweepDistinct(c, direct, 0);
    SweepSteady(c, r, 0);
    if |r| == |direct| {
      assert r == direct;
    } else {
      DistinctBounded(r, |c.panels|);
      assert Sweeps(c, r) == r;
    }
  }

  lemma {:induction false} SweepSteady(c: Config, affected: seq<nat>, i: nat)
    requires i <= |c.panels| && forall p :: i <= p < |c.panels| ==> !Joins(c, affected, p)
    ensures Sweep(c, affected, i) == affected
    decreases |c.panels| - i
  {
    if i < |c.panels| {
      SweepSteady(c, affected, i + 1);
    }
  }

  lemma {:induction false} OrderedSweepCloses(c: Config, affected: seq<nat>, i: nat)
    requires i <= |c.panels|
    requires forall p :: 0 <= p < |c.panels| && Src(c, p) < |c.panels| ==> Src(c, p) < p
    requires forall p :: 0 <= p < i ==> !Joins(c, affected, p)
    requires forall p :: p in affected ==> p < |c.panels|
    ensures forall p :: 0 <= p < |c.panels| ==> !Joins(c, Sweep(c, affected, i), p)
    decreases |c.panels| - i
  {
    if i < |c.panels| {
      var next := if Joins(c, affected, i) then affected + [i] else affected;
      forall p | 0 <= p < i + 1
        ensures !Joins(c, next, p)
      {
        assert p < i ==> !Joins(c, affected, p);
        assert Src(c, p) != i;
      }
      OrderedSweepCloses(c, next, i + 1);
    }
  }

  // --- A parameter change ---

  lemma ParamsInv(c: Config, s: State, name: string, v: Value, todo: set<nat>)
    requires Inv(c, s) && ClosedUnder(c, todo)
    requires forall p :: 0 <= p < |c.panels| && DirectlyAffected(c, name, p) ==> p in todo
    ensures InvWhile(c, s.(params := s.params[name := v]), todo)
  {
    var t := s.(params := s.params[name := v]);
    forall r | r in t.runs
      ensures RunOk(c, t, r, t.runs[r])
    {
      assert RunOk(c, s, r, s.runs[r]);
    }
    forall q | 0 <= q < |t.panels|
      ensures PendingOk(c, t, q)
    {
      assert PendingOk(c, s, q);
    }
    forall q | 0 <= q < |t.panels| && q !in todo
      ensures StartedOk(c, t, q)
    {
      assert StartedOk(c, s, q);
      if Queries(c, q) && RefsMentioned(c.panels[q].query) {
        UnmentionedUnchanged(c.js, c.defs, s.params, c.panels[q].query, name, v);
      }
    }
    forall q | 0 <= q < |t.panels| && q !in todo && Fed(c, q)
      ensures EdgeOk(c, t, todo, q)
    {
      assert EdgeOk(c, s, {}, q);
    }
  }

  lemma ChangeInv(c: Config, s: State, name: string, v: Value)
    requires Inv(c, s) && !s.boot.NotStarted?
    ensures Inv(c, Change(c, s, name, s.params[name := v]))
  {
    var order := RerunOrder(c, name);
    var todo := Elements(order);
    RerunIsLeastClosure(c, name);
    ParamsInv(c, s, name, v, todo);
    var s1 := s.(params := s.params[name := v]);
    InstallAllInv(c, s1, order, todo);
    var s2 := InstallAll(s1, order);
    forall i | 0 <= i < |order|
      ensures SourceReady(c, s2, todo, order[i])
    {
      DirectDistinct(c, name, 0);
      FedIsNotDirect(c, name, order, i);
    }
    StartAllInv(c, s2, order, todo);
    assert todo - Elements(order) == {};
  }

  lemma FedIsNotDirect(c: Config, name: string, order: seq<nat>, i: nat)
    requires i < |order| && order[i] < |c.panels| && Justified(c, DirectFrom(c, name, 0), order)
    requires IsLeastClosure(c, name, Elements(order))
    ensures Fed(c, order[i]) ==> Src(c, order[i]) in Elements(order)
  {
    DirectDistinct(c, name, 0);
    if Fed(c, order[i]) && name == "" {
      assert DirectlyAffected(c, name, Src(c, order[i]));
    }
  }

  lemma BootStartInv(c: Config, s: State)
    requires Inv(c, s) && s.boot.NotStarted? && c.concurrent
    ensures Inv(c, StartAll(c, s.(boot := AllStarted), AllPanels(|c.panels|)))
  {
    var all := AllPanels(|c.panels|);
    var todo := Elements(all);
    var t := s.(boot := AllStarted);
    forall p | 0 <= p < |c.panels|
      ensures all[p] == p && p in todo
    {
      assert all[p] in all;
    }
    forall q | 0 <= q < |t.panels|
      ensures PendingOk(c, t, q)
    {
      assert PendingOk(c, s, q);
    }
    assert InvWhile(c, t, todo);
    StartAllInv(c, t, all, todo);
    assert todo - Elements(all) == {};
  }

  // --- Every event ---

  lemma EventInv(c: Config, s: State, e: Event)
    requires Inv(c, s)
    ensures Shaped(c, s)
    ensures Enabled(c, s, e) ==> Inv(c, Apply(c, s, e))
  {
    InvParts(c, s, {});
    if Enabled(c, s, e) {
      match e
      case BootStart =>
        if c.concurrent {
          BootStartInv(c, s);
        } else {
          BootAtInv(c, s);
        }
      case BootNext => BootAtInv(c, s);
      case Resume(_) => ComeBackInv(c, s, e);
      case Answer(_, _, _) => ComeBackInv(c, s, e);
      case Fault(_) => ComeBackInv(c, s, e);
      case SetParam(name, value) =>
        var next := TrySet(c.js, c.defs, s.params, name, value);
        if next.Some? {
          ChangeInv(c, s, name, Coerced(c.js, c.defs[name], value).value);
        }
      case Commit(name, value) => ChangeInv(c, s, name, value);
    }
  }

  lemma ComeBackInv(c: Config, s: State, e: Event)
    requires Inv(c, s) && Shaped(c, s) && Enabled(c, s, e) && (e.Resume? || e.Answer? || e.Fault?)
    ensures Inv(c, Apply(c, s, e))
  {
    var rows, o := ComesBack(c, s, e, e.r);
    hide Apply, Settle, Inv, Reports;
    SettleInv(c, s, e.r, rows, o);
  }
}
