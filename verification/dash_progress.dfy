// Nothing waits for ever: the newest runs in any interleaving, and the whole boot when no
// parameter changes meanwhile.
module DashProgress {
  import opened Interpolate
  import opened Dash
  import opened DashInvariant
  import opened DashLaws

  // --- The newest runs ---

  ghost predicate NonePending(s: State) {
    forall p :: 0 <= p < |s.panels| ==> !s.panels[p].outcome.Pending?
  }

  // The event that lets run r come back: its deferred is settled, or its fetch fails.
  function ComeBack(s: State, r: nat): Event
    requires r in s.runs
  {
    if s.runs[r].AwaitSource? then Resume(r) else Fault(r)
  }

  // The first pending panel can always go on: its source, if any, has finished.
  lemma {:induction false} FirstPendingReady(c: Config, s: State, p: nat)
    requires Inv(c, s) && p < |c.panels| && s.panels[p].outcome.Pending?
    ensures Shaped(c, s)
    ensures exists q :: 0 <= q < |c.panels| && s.panels[q].outcome.Pending? && s.panels[q].newest in s.runs
                        && Enabled(c, s, ComeBack(s, s.panels[q].newest))
    decreases p
  {
    InvParts(c, s, {});
    var r := s.panels[p].newest;
    assert PendingOk(c, s, p) && StartedOk(c, s, p);
    assert RunOk(c, s, r, s.runs[r]);
    if s.runs[r].AwaitSource? && s.panels[Src(c, p)].outcome.Pending? {
      FirstPendingReady(c, s, Src(c, p));
    } else if s.runs[r].AwaitSource? {
      assert EdgeOk(c, s, {}, p) && StartedOk(c, s, Src(c, p));
      assert Enabled(c, s, ComeBack(s, r));
    } else {
      assert Enabled(c, s, ComeBack(s, r));
    }
  }

  // A run that comes back is gone, and brings no other along.
  lemma ComeBackShrinks(c: Config, s: State, e: Event, r: nat)
    requires Shaped(c, s) && Enabled(c, s, e) && Settles(e, r)
    ensures r in s.runs && Apply(c, s, e).runs == s.runs - {r} && |Apply(c, s, e).runs| == |s.runs| - 1
    ensures Apply(c, s, e).boot == s.boot
  {
    assert (s.runs - {r}).Keys == s.runs.Keys - {r};
    assert |s.runs.Keys| == |s.runs|;
    assert |(s.runs - {r}).Keys| == |s.runs - {r}|;
  }

  ghost predicate OnlyComingBack(es: seq<Event>) {
    forall i :: 0 <= i < |es| ==> es[i].Resume? || es[i].Answer? || es[i].Fault?
  }

  lemma SomePendingComesBack(c: Config, s: State) returns (e: Event)
    requires Inv(c, s) && !NonePending(s)
    ensures Shaped(c, s) && Enabled(c, s, e) && (e.Resume? || e.Fault?)
    ensures Inv(c, Apply(c, s, e)) && |Apply(c, s, e).runs| < |s.runs|
  {
    InvParts(c, s, {});
    var p: nat :| p < |s.panels| && s.panels[p].outcome.Pending?;
    FirstPendingReady(c, s, p);
    hide Inv, Enabled, Shaped, Apply;
    var q :| 0 <= q < |c.panels| && s.panels[q].outcome.Pending? && s.panels[q].newest in s.runs
             && Enabled(c, s, ComeBack(s, s.panels[q].newest));
    e := ComeBack(s, s.panels[q].newest);
    assert Settles(e, s.panels[q].newest);
    ComeBackShrinks(c, s, e, s.panels[q].newest);
    EventInv(c, s, e);
  }

  // From every reachable state, once the parameters are left alone, runs coming back are
  // all it takes for no newest run to be pending, and at most as many as there are.
  lemma {:induction false} Quiesces(c: Config, s: State) returns (es: seq<Event>)
    requires Inv(c, s)
    ensures Possible(c, s, es) && OnlyComingBack(es) && |es| <= |s.runs|
    ensures NonePending(After(c, s, es))
    decreases |s.runs|
  {
    hide Inv, Apply, Enabled, Shaped, NonePending;
    if NonePending(s) {
      es := [];
    } else {
      var e := SomePendingComesBack(c, s);
      var rest := Quiesces(c, Apply(c, s, e));
      es := [e] + rest;
      assert es[1..] == rest;
    }
  }

  // --- A boot without parameter changes ---

  predicate Changes(e: Event) {
    e.SetParam? || e.Commit?
  }

  // Every suspended run is its panel's newest.
  ghost predicate AllNewest(c: Config, s: State) {
    && |s.panels| == |c.panels|
    && (forall r :: r in s.runs ==> s.runs[r].panel < |s.panels| && s.panels[s.runs[r].panel].newest == r)
    && (forall r :: r in s.runs ==> !s.panels[s.runs[r].panel].outcome.Idle?)
  }

  // And panels the boot has not reached are idle.
  ghost predicate Undisturbed(c: Config, s: State) {
    AllNewest(c, s) && forall p :: BootIndex(c, s) <= p < |s.panels| ==> s.panels[p].outcome.Idle?
  }

  function Remaining(c: Config, s: State): nat
    requires BootIndex(c, s) <= |c.panels|
  {
    match s.boot
    case NotStarted => 2 * |c.panels| + 2
    case Waiting(next, _) => 2 * (|c.panels| - next) + 1
    case AllStarted => 0
  }

  function Measure(c: Config, s: State): nat
    requires BootIndex(c, s) <= |c.panels|
  {
    Remaining(c, s) + |s.runs|
  }

  lemma OneMore(runs: map<nat, Run>, r: nat, run: Run)
    ensures |runs[r := run]| <= |runs| + 1
  {
    assert runs[r := run].Keys == runs.Keys + {r};
    assert |runs[r := run].Keys| == |runs[r := run]| && |runs.Keys| == |runs|;
  }

  lemma StartRunUndisturbed(c: Config, s: State, p: nat)
    requires AllNewest(c, s) && p < |c.panels| && s.panels[p].outcome.Idle?
    ensures var t := StartRun(c, s, p);
            && AllNewest(c, t) && |t.runs| <= |s.runs| + 1 && t.boot == s.boot
            && (forall q :: 0 <= q < |s.panels| && q != p ==> t.panels[q] == s.panels[q])
  {
    var launch := Launched(c, s, p);
    if launch.Suspend? {
      OneMore(s.runs, s.nextRun, launch.run);
      assert launch.run.panel == p;
    }
    hide Launched;
    var t := StartRun(c, s, p);
    forall r | r in t.runs
      ensures t.runs[r].panel < |t.panels| && t.panels[t.runs[r].panel].newest == r
      ensures !t.panels[t.runs[r].panel].outcome.Idle?
    {
      assert r in s.runs ==> s.runs[r].panel != p;
    }
  }

  lemma {:induction false} StartAllUndisturbed(c: Config, s: State, order: seq<nat>)
    requires AllNewest(c, s) && Distinct(order, |c.panels|)
    requires forall i :: 0 <= i < |order| ==> s.panels[order[i]].outcome.Idle?
    ensures var t := StartAll(c, s, order);
            && AllNewest(c, t) && |t.runs| <= |s.runs| + |order| && t.boot == s.boot
            && (forall q :: 0 <= q < |s.panels| && q !in order ==> t.panels[q] == s.panels[q])
    decreases |order|
  {
    assert |s.panels| == |c.panels|;
    hide StartRun, AllNewest;
    if order != [] {
      var init, p := order[..|order| - 1], order[|order| - 1];
      assert Distinct(init, |c.panels|);
      StartAllUndisturbed(c, s, init);
      var t := StartAll(c, s, init);
      assert p !in init;
      assert |t.panels| == |s.panels| == |c.panels|;
      StartRunUndisturbed(c, t, p);
    }
  }

  // Every event of an undisturbed boot keeps it so, and brings its end nearer.
  lemma BootAdvances(c: Config, s: State, e: Event)
    requires Inv(c, s) && Undisturbed(c, s) && Shaped(c, s) && Enabled(c, s, e) && !Changes(e)
    requires Inv(c, Apply(c, s, e))
    ensures Undisturbed(c, Apply(c, s, e))
    ensures BootIndex(c, s) <= |c.panels| && BootIndex(c, Apply(c, s, e)) <= |c.panels|
    ensures Measure(c, Apply(c, s, e)) < Measure(c, s)
  {
    var t := Apply(c, s, e);
    InvParts(c, s, {});
    InvParts(c, t, {});
    if e.Resume? || e.Answer? || e.Fault? {
      var rows, o := ComesBack(c, s, e, e.r);
      assert Finished(o);
      ComeBackShrinks(c, s, e, e.r);
      hide Apply, Settle, Enabled, Shaped, Inv, Reports, Undisturbed;
      SettleUndisturbed(c, s, e.r, rows, o);
    } else if e.BootStart? && c.concurrent {
      StartAllUndisturbed(c, s.(boot := AllStarted), AllPanels(|c.panels|));
    } else {
      BootAtAdvances(c, s);
    }
  }

  lemma SettleUndisturbed(c: Config, s: State, r: nat, rows: Rows, o: Outcome)
    requires Undisturbed(c, s) && r in s.runs && Finished(o)
    ensures s.runs[r].panel < |s.panels| && Undisturbed(c, Settle(s, r, rows, o))
  {
    SettleFrame(s, r, rows, o);
    hide Settle;
  }

  lemma BootAtAdvances(c: Config, s: State)
    requires Undisturbed(c, s) && BootIndex(c, s) <= |c.panels| && !s.boot.AllStarted?
    ensures var t := BootAt(c, s, BootIndex(c, s));
            Undisturbed(c, t) && BootIndex(c, t) <= |c.panels| && Measure(c, t) < Measure(c, s)
  {
    var next := BootIndex(c, s);
    if next < |c.panels| {
      var t := s.(boot := Waiting(next + 1, s.nextRun));
      assert AllNewest(c, t) && t.panels[next].outcome.Idle?;
      assert forall p :: next < p < |s.panels| ==> t.panels[p].outcome.Idle?;
      assert BootAt(c, s, next) == StartRun(c, t, next);
      hide StartRun, BootAt;
      StartRunUndisturbed(c, t, next);
    }
  }

  // An undisturbed boot is never stuck: until all panels have started and every run has
  // come back, some event can happen that brings the end nearer.
  lemma BootNeverStuck(c: Config, s: State)
    requires Inv(c, s) && Undisturbed(c, s) && !(s.boot.AllStarted? && s.runs == map[])
    ensures Shaped(c, s)
    ensures exists e :: !Changes(e) && Enabled(c, s, e)
  {
    InvParts(c, s, {});
    if s.boot.NotStarted? {
      assert Enabled(c, s, BootStart) && !Changes(BootStart);
    } else if r :| r in s.runs {
      var p := s.runs[r].panel;
      assert PendingOk(c, s, p);
      FirstPendingReady(c, s, p);
      var q :| 0 <= q < |c.panels| && s.panels[q].outcome.Pending? && s.panels[q].newest in s.runs
               && Enabled(c, s, ComeBack(s, s.panels[q].newest));
      assert !Changes(ComeBack(s, s.panels[q].newest));
    } else {
      InvParts(c, s, {});
      assert s.runs == map[];
      assert Enabled(c, s, BootNext) && !Changes(BootNext);
    }
  }

  // Where the boot ends: every panel finished, every deferred resolved, and every panel
  // with an unusable source has failed.
  ghost predicate BootedWell(c: Config, s: State) {
    && |s.panels| == |c.panels| && s.boot.AllStarted? && s.runs == map[]
    && forall p :: 0 <= p < |c.panels| ==>
         && Finished(s.panels[p].outcome) && s.panels[p].loaded in s.settled
         && (c.panels[p].source != "" && !Fed(c, p) ==> s.panels[p].outcome.Failed?)
  }

  lemma AllStartedEndsWell(c: Config, s: State)
    requires Inv(c, s) && s.boot.AllStarted? && s.runs == map[]
    ensures BootedWell(c, s)
  {
    forall p | 0 <= p < |c.panels|
      ensures Finished(s.panels[p].outcome) && s.panels[p].loaded in s.settled
      ensures c.panels[p].source != "" && !Fed(c, p) ==> s.panels[p].outcome.Failed?
    {
      assert PendingOk(c, s, p) && StartedOk(c, s, p);
    }
  }

  lemma {:induction false} UndisturbedRun(c: Config, s: State, es: seq<Event>)
    requires Inv(c, s) && Undisturbed(c, s) && Possible(c, s, es)
    requires forall i :: 0 <= i < |es| ==> !Changes(es[i])
    ensures BootIndex(c, s) <= |c.panels| && |es| <= Measure(c, s)
    ensures Inv(c, After(c, s, es)) && Undisturbed(c, After(c, s, es))
    decreases |es|
  {
    InvParts(c, s, {});
    hide Inv, Undisturbed, Apply, Enabled, Shaped, Measure, Changes;
    if es != [] {
      EventInv(c, s, es[0]);
      BootAdvances(c, s, es[0]);
      UndisturbedRun(c, Apply(c, s, es[0]), es[1..]);
    }
  }

  // Every boot without parameter changes, sequential or concurrent, takes at most
  // 2n + 2 events; it stops only when no panel is left waiting.
  lemma BootCompletes(c: Config, params: Params, es: seq<Event>)
    requires Possible(c, Initial(c, params), es)
    requires forall i :: 0 <= i < |es| ==> !Changes(es[i])
    ensures |es| <= 2 * |c.panels| + 2
    ensures var s := After(c, Initial(c, params), es);
            && Shaped(c, s)
            && ((forall e :: !Changes(e) ==> !Enabled(c, s, e)) <==> BootedWell(c, s))
  {
    InitialInv(c, params);
    UndisturbedRun(c, Initial(c, params), es);
    var s := After(c, Initial(c, params), es);
    InvParts(c, s, {});
    hide Inv, Undisturbed, Possible, After;
    if s.boot.AllStarted? && s.runs == map[] {
      AllStartedEndsWell(c, s);
    } else {
      BootNeverStuck(c, s);
    }
  }
}
