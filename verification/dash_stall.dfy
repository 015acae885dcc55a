// When a parameter change stalls a sequential boot: exactly when the boot awaits a run
// whose deferred was replaced before it was settled.
module DashStall {
  import opened Basics
  import opened Interpolate
  import opened Dash
  import opened DashInvariant
  import opened DashLaws
  import opened DashProgress
  import opened DashStarts

  predicate Stalled(c: Config, s: State) {
    && s.boot.Waiting? && s.boot.run in s.runs
    && var run := s.runs[s.boot.run];
       && run.AwaitSource? && run.deferred !in s.settled && run.panel < |c.panels|
       && (Src(c, run.panel) < |s.panels| ==> run.deferred != s.panels[Src(c, run.panel)].loaded)
  }

  lemma StartsStalled(c: Config, s: State, t: State, started: set<nat>)
    requires Inv(c, s) && Stalled(c, s) && Starts(c, s, t, started) && t.boot == s.boot
    ensures Stalled(c, t)
  {
    var run := s.runs[s.boot.run];
    assert RunOk(c, s, s.boot.run, run);
    assert StartsPanel(c, s, t, started, Src(c, run.panel));
    assert forall q :: 0 <= q < |s.panels| ==> s.panels[q].loaded != run.deferred;
    hide Inv, Fed, Src;
  }

  lemma SettleStalled(c: Config, s: State, r: nat, rows: Rows, o: Outcome)
    requires Stalled(c, s) && r in s.runs && s.runs[r].panel < |s.panels| && r != s.boot.run
    requires forall q :: 0 <= q < |s.panels| ==> s.panels[q].loaded != s.runs[s.boot.run].deferred
    ensures Stalled(c, Settle(s, r, rows, o)) && Settle(s, r, rows, o).boot == s.boot
  {
    hide Newest, Src;
    SettleFrame(s, r, rows, o);
    hide Settle;
  }

  // Every event leaves a stalled boot stalled.
  lemma EventStalled(c: Config, s: State, e: Event)
    requires Inv(c, s) && Shaped(c, s) && Enabled(c, s, e) && Stalled(c, s)
    ensures Stalled(c, Apply(c, s, e)) && Apply(c, s, e).boot == s.boot
  {
    var run := s.runs[s.boot.run];
    assert RunOk(c, s, s.boot.run, run);
    assert forall q :: 0 <= q < |s.panels| ==> s.panels[q].loaded != run.deferred;
    if e.Resume? || e.Answer? || e.Fault? {
      assert e.r != s.boot.run;
      var rows, o := ComesBack(c, s, e, e.r);
      hide Apply, Enabled, Shaped, Settle, Inv, Reports, Stalled;
      SettleStalled(c, s, e.r, rows, o);
    } else {
      InvNumbered(c, s);
      var started := EventStarts(c, s, e);
      assert Apply(c, s, e).boot == s.boot;
      hide Apply, Enabled, Shaped, Inv, Stalled, Starts;
      StartsStalled(c, s, Apply(c, s, e), started);
    }
  }

  // A stalled boot never starts another panel, whatever happens.
  lemma {:induction false} StalledForEver(c: Config, s: State, es: seq<Event>)
    requires Inv(c, s) && Stalled(c, s) && Possible(c, s, es)
    ensures After(c, s, es).boot == s.boot && Stalled(c, After(c, s, es))
    decreases |es|
  {
    hide Inv, Stalled, Apply, Enabled, Shaped;
    if es != [] {
      EventInv(c, s, es[0]);
      EventStalled(c, s, es[0]);
      StalledForEver(c, Apply(c, s, es[0]), es[1..]);
    }
  }

  // --- Otherwise the boot goes on ---

  lemma {:induction false} ComingBackKeeps(c: Config, s: State, es: seq<Event>)
    requires Inv(c, s) && Possible(c, s, es) && OnlyComingBack(es)
    ensures var t := After(c, s, es); Inv(c, t) && t.boot == s.boot && (Stalled(c, t) ==> Stalled(c, s))
    decreases |es|
  {
    hide Inv, Stalled, Apply, Enabled, Shaped;
    if es != [] {
      EventInv(c, s, es[0]);
      OneComingBackKeeps(c, s, es[0]);
      ComingBackKeeps(c, Apply(c, s, es[0]), es[1..]);
    }
  }

  lemma OneComingBackKeeps(c: Config, s: State, e: Event)
    requires Shaped(c, s) && Enabled(c, s, e) && (e.Resume? || e.Answer? || e.Fault?)
    ensures var t := Apply(c, s, e); t.boot == s.boot && (Stalled(c, t) ==> Stalled(c, s))
  {
    var rows, o := ComesBack(c, s, e, e.r);
    hide Apply, Settle, Enabled, Shaped, Reports;
    SettleFrame(s, e.r, rows, o);
  }

  lemma BootNextMoves(c: Config, s: State)
    requires Inv(c, s) && s.boot.Waiting? && s.boot.run !in s.runs
    ensures Possible(c, s, [BootNext]) && After(c, s, [BootNext]).boot != s.boot
  {
    InvParts(c, s, {});
    assert [BootNext][1..] == [];
    assert Possible(c, Apply(c, s, BootNext), []);
  }

  // The awaited run comes back, and the boot goes on.
  lemma OneThenNext(c: Config, s: State, e: Event)
    requires Inv(c, s) && s.boot.Waiting? && Settles(e, s.boot.run)
    requires Shaped(c, s) && Enabled(c, s, e)
    ensures Possible(c, s, [e, BootNext]) && After(c, s, [e, BootNext]).boot != s.boot
  {
    EventInv(c, s, e);
    ComeBackShrinks(c, s, e, s.boot.run);
    var t := Apply(c, s, e);
    BootNextMoves(c, t);
    hide Inv, Apply, Enabled, Shaped;
    assert [e, BootNext][1..] == [BootNext];
  }

  // Once nothing is pending, the run the boot awaits can come back.
  lemma AwaitedComesBack(c: Config, s: State)
    requires Inv(c, s) && NonePending(s) && s.boot.Waiting? && s.boot.run in s.runs && !Stalled(c, s)
    ensures Shaped(c, s) && Enabled(c, s, ComeBack(s, s.boot.run))
  {
    InvParts(c, s, {});
    var run := s.runs[s.boot.run];
    assert RunOk(c, s, s.boot.run, run);
    assert run.AwaitSource? ==> EdgeOk(c, s, {}, run.panel) && StartedOk(c, s, Src(c, run.panel));
  }

  lemma GoesOnSettled(c: Config, s: State) returns (es: seq<Event>)
    requires Inv(c, s) && s.boot.Waiting? && !Stalled(c, s) && NonePending(s)
    ensures Possible(c, s, es) && After(c, s, es).boot != s.boot
    ensures forall i :: 0 <= i < |es| ==> !Changes(es[i])
  {
    hide Inv, NonePending, Stalled, Possible, After, Enabled, Shaped;
    if s.boot.run in s.runs {
      AwaitedComesBack(c, s);
      es := [ComeBack(s, s.boot.run), BootNext];
      OneThenNext(c, s, es[0]);
    } else {
      es := [BootNext];
      BootNextMoves(c, s);
    }
  }

  // Let everything come back first; then the boot is where it was, and not stalled.
  lemma BootMovesOn(c: Config, s: State) returns (es: seq<Event>)
    requires Inv(c, s) && s.boot.Waiting? && !Stalled(c, s)
    ensures Possible(c, s, es) && After(c, s, es).boot != s.boot
    ensures forall i :: 0 <= i < |es| ==> !Changes(es[i])
  {
    hide Inv, NonePending, Stalled, Possible, After;
    var settling := Quiesces(c, s);
    ComingBackKeeps(c, s, settling);
    var fs := GoesOnSettled(c, After(c, s, settling));
    Appended(c, s, settling, fs);
    es := settling + fs;
  }

  // --- Over all runs ---

  // In every reachable state, a waiting boot can go on without any further parameter
  // change exactly when it is not stalled.
  lemma BootGoesOnIff(c: Config, params: Params, es: seq<Event>)
    requires Possible(c, Initial(c, params), es) && After(c, Initial(c, params), es).boot.Waiting?
    ensures var s := After(c, Initial(c, params), es);
            !Stalled(c, s) <==>
              exists more :: Possible(c, s, more) && After(c, s, more).boot != s.boot
                             && forall i :: 0 <= i < |more| ==> !Changes(more[i])
  {
    var s := After(c, Initial(c, params), es);
    InitialInv(c, params);
    RunInv(c, Initial(c, params), es);
    hide Inv, Initial;
    if Stalled(c, s) {
      forall more | Possible(c, s, more)
        ensures After(c, s, more).boot == s.boot
      {
        StalledForEver(c, s, more);
      }
    } else {
      var more := BootMovesOn(c, s);
    }
  }

  // --- Quiescence ---

  // Only a parameter change can happen.
  ghost predicate Quiescent(c: Config, s: State) {
    Shaped(c, s) && forall e :: !Changes(e) ==> !Enabled(c, s, e)
  }

  lemma SomethingHappens(c: Config, s: State)
    requires Inv(c, s)
    requires !NonePending(s) || !(s.boot.AllStarted? || Stalled(c, s))
    ensures Shaped(c, s) && exists e :: !Changes(e) && Enabled(c, s, e)
  {
    InvParts(c, s, {});
    if p: nat :| p < |s.panels| && s.panels[p].outcome.Pending? {
      FirstPendingReady(c, s, p);
      var q :| 0 <= q < |c.panels| && s.panels[q].outcome.Pending? && s.panels[q].newest in s.runs
               && Enabled(c, s, ComeBack(s, s.panels[q].newest));
      assert !Changes(ComeBack(s, s.panels[q].newest));
    } else if s.boot.NotStarted? {
      assert Enabled(c, s, BootStart) && !Changes(BootStart);
    } else if s.boot.run !in s.runs {
      assert Enabled(c, s, BootNext) && !Changes(BootNext);
    } else {
      AwaitedComesBack(c, s);
      assert !Changes(ComeBack(s, s.boot.run));
    }
  }

  lemma QuiescentDone(c: Config, s: State)
    requires Inv(c, s) && Quiescent(c, s)
    ensures NonePending(s) && (s.boot.AllStarted? || Stalled(c, s))
  {
    hide Inv, NonePending, Stalled, Enabled;
    if !NonePending(s) || !(s.boot.AllStarted? || Stalled(c, s)) {
      SomethingHappens(c, s);
    }
  }

  // When only parameter changes can happen any more, every started panel has finished,
  // and either the boot has started everything, and every succeeded panel agrees with its
  // whole chain of sources, or it is stalled, and every panel of an earlier source it is
  // not between agrees.
  lemma QuiescentAgreement(c: Config, params: Params, es: seq<Event>)
    requires Possible(c, Initial(c, params), es) && Quiescent(c, After(c, Initial(c, params), es))
    ensures var s := After(c, Initial(c, params), es);
            && |s.panels| == |c.panels| && NonePending(s)
            && (s.boot.AllStarted? || Stalled(c, s))
            && (s.boot.AllStarted? ==> forall p :: 0 <= p < |c.panels| ==> Finished(s.panels[p].outcome))
            && forall p :: 0 <= p < |c.panels| && Fed(c, p) && s.panels[p].outcome.Ok? ==>
                 && (s.boot.AllStarted? || !BootBetween(c, s, p) ==>
                       Transformed(c, p, s.panels[Src(c, p)].rows, s.panels[p].outcome.params) == Some(s.panels[p].rows))
                 && (ChainDone(c, s, p) ==> Derived(c, s, p) == Some(s.panels[p].rows))
  {
    var s := After(c, Initial(c, params), es);
    InitialInv(c, params);
    RunInv(c, Initial(c, params), es);
    QuiescentDone(c, s);
    InvParts(c, s, {});
    hide Inv, Quiescent, Possible, After, Initial, Transformed, Derived, ChainDone, Fed;
    forall p | 0 <= p < |c.panels| && Fed(c, p) && s.panels[p].outcome.Ok?
      ensures s.boot.AllStarted? || !BootBetween(c, s, p) ==>
                Transformed(c, p, s.panels[Src(c, p)].rows, s.panels[p].outcome.params) == Some(s.panels[p].rows)
      ensures ChainDone(c, s, p) ==> Derived(c, s, p) == Some(s.panels[p].rows)
    {
      AgreementOverAllRuns(c, params, es, p);
    }
  }
}
