// What the events that start runs have in common, whichever and how many they start.
module DashStarts {
  import opened Interpolate
  import opened ParamLaws
  import opened Dash
  import opened DashInvariant

  // What becomes of panel q, b after and a before, when new runs of some panels start.
  ghost predicate StartsPanel(c: Config, s: State, t: State, started: set<nat>, q: nat)
    requires q < |s.panels| && q < |t.panels| && q < |c.panels|
  {
    var a, b := s.panels[q], t.panels[q];
    && b.rows == a.rows
    && (q in started ==> b.newest >= s.nextRun && !b.outcome.Idle? && (Fed(c, q) ==> b.outcome.Pending?))
    && (q in started ==> (b.outcome.Ok? <==> c.panels[q].source == "" && c.panels[q].query == ""))
    && (q !in started ==> b.newest == a.newest && b.outcome == a.outcome)
    && (b.loaded == a.loaded || b.loaded >= s.nextDeferred)
    && (b.loaded in t.settled ==> b.loaded in s.settled || (q in started && Finished(b.outcome)))
  }

  // Exactly these panels start, each once; runs under way stay, and only deferreds now
  // current, or new ones, are settled.
  ghost predicate Starts(c: Config, s: State, t: State, started: set<nat>) {
    && |s.panels| == |t.panels| == |c.panels|
    && t.nextRun >= s.nextRun && t.nextDeferred >= s.nextDeferred
    && (forall r :: r in s.runs ==> r in t.runs && t.runs[r] == s.runs[r])
    && (forall r :: r in t.runs ==> r in s.runs || r >= s.nextRun)
    && (forall d :: d in t.settled ==>
          d in s.settled || d >= s.nextDeferred || exists q :: 0 <= q < |s.panels| && s.panels[q].loaded == d)
    && forall q :: 0 <= q < |s.panels| ==> StartsPanel(c, s, t, started, q)
  }

  // What the turn relies on, and keeps between two starts.
  ghost predicate Numbered(c: Config, s: State) {
    && |s.panels| == |c.panels| && Deferreds(s)
    && forall r :: r in s.runs ==> r < s.nextRun
  }

  lemma InvNumbered(c: Config, s: State)
    requires Inv(c, s)
    ensures Numbered(c, s) && BootIndex(c, s) <= |c.panels|
    ensures forall q :: 0 <= q < |s.panels| ==>
              s.panels[q].newest < s.nextRun && (Finished(s.panels[q].outcome) ==> s.panels[q].newest !in s.runs)
  {
    forall r | r in s.runs
      ensures r < s.nextRun
    {
      assert RunOk(c, s, r, s.runs[r]);
    }
    forall q | 0 <= q < |s.panels|
      ensures s.panels[q].newest < s.nextRun && (Finished(s.panels[q].outcome) ==> s.panels[q].newest !in s.runs)
    {
      assert PendingOk(c, s, q);
    }
  }

  ghost predicate SameLoaded(s: State, t: State) {
    |s.panels| == |t.panels| && forall q :: 0 <= q < |s.panels| ==> t.panels[q].loaded == s.panels[q].loaded
  }

  lemma NothingStarts(c: Config, s: State)
    requires |s.panels| == |c.panels|
    ensures Starts(c, s, s, {}) && SameLoaded(s, s)
  {
  }

  lemma StartRunStarts(c: Config, s: State, p: nat)
    requires Numbered(c, s) && p < |c.panels|
    ensures Starts(c, s, StartRun(c, s, p), {p}) && Numbered(c, StartRun(c, s, p))
    ensures SameLoaded(s, StartRun(c, s, p))
  {
    StartRunFrame(c, s, p);
    StartRunAdds(c, s, p);
    hide StartRun, Launched, Fed, Src;
  }

  lemma StartsOn(c: Config, s: State, t: State, u: State, started: set<nat>, p: nat)
    requires Starts(c, s, t, started) && Starts(c, t, u, {p}) && p !in started
    requires Numbered(c, s) && Numbered(c, t)
    requires SameLoaded(t, u)
    ensures Starts(c, s, u, started + {p}) && (SameLoaded(s, t) ==> SameLoaded(s, u))
  {
    hide Fed;
    forall q | 0 <= q < |s.panels|
      ensures StartsPanel(c, s, u, started + {p}, q)
    {
      assert StartsPanel(c, s, t, started, q) && StartsPanel(c, t, u, {p}, q);
    }
    forall d | d in u.settled && d !in s.settled && d < s.nextDeferred
      ensures exists q :: 0 <= q < |s.panels| && s.panels[q].loaded == d
    {
      if d !in t.settled {
        var q :| 0 <= q < |t.panels| && t.panels[q].loaded == d;
        assert StartsPanel(c, s, t, started, q);
      }
    }
  }

  lemma StartNext(c: Config, s: State, t: State, started: seq<nat>, p: nat)
    requires Starts(c, s, t, Elements(started)) && Numbered(c, s) && Numbered(c, t) && SameLoaded(s, t)
    requires p < |c.panels| && p !in started
    ensures |t.panels| == |c.panels|
    ensures var u := StartRun(c, t, p);
            Starts(c, s, u, Elements(started + [p])) && Numbered(c, u) && SameLoaded(s, u)
  {
    assert |t.panels| == |c.panels|;
    assert Elements(started + [p]) == Elements(started) + {p};
    hide StartRun, Starts, Numbered, SameLoaded;
    StartRunStarts(c, t, p);
    StartsOn(c, s, t, StartRun(c, t, p), Elements(started), p);
  }

  lemma {:induction false} StartAllStarts(c: Config, s: State, order: seq<nat>)
    requires Numbered(c, s) && Distinct(order, |c.panels|)
    ensures |s.panels| == |c.panels|
    ensures var t := StartAll(c, s, order);
            Starts(c, s, t, Elements(order)) && Numbered(c, t) && SameLoaded(s, t)
    decreases |order|
  {
    assert |s.panels| == |c.panels|;
    hide StartRun, Starts, Numbered, SameLoaded;
    if order == [] {
      assert Elements(order) == {};
      NothingStarts(c, s);
    } else {
      var init, p := order[..|order| - 1], order[|order| - 1];
      assert order == init + [p];
      StartAllStarts(c, s, init);
      hide Elements, Distinct;
      StartNext(c, s, StartAll(c, s, init), init, p);
    }
  }

  lemma {:induction false} InstallAllStarts(c: Config, s: State, order: seq<nat>)
    requires Numbered(c, s) && Distinct(order, |c.panels|)
    ensures |s.panels| == |c.panels|
    ensures Starts(c, s, InstallAll(s, order), {}) && Numbered(c, InstallAll(s, order))
    decreases |order|
  {
    assert |s.panels| == |c.panels|;
    hide Starts, Numbered, Install;
    if order == [] {
      NothingStarts(c, s);
    } else {
      InstallAllStarts(c, s, order[..|order| - 1]);
      InstallStarts(c, s, InstallAll(s, order[..|order| - 1]), order[|order| - 1]);
    }
  }

  lemma InstallStarts(c: Config, s: State, t: State, p: nat)
    requires Starts(c, s, t, {}) && Numbered(c, s) && Numbered(c, t) && p < |c.panels|
    ensures Starts(c, s, Install(t, p), {}) && Numbered(c, Install(t, p))
  {
    hide Fed;
    forall q | 0 <= q < |s.panels|
      ensures StartsPanel(c, s, Install(t, p), {}, q)
    {
      assert StartsPanel(c, s, t, {}, q);
    }
  }

  // Once the boot has started a source, any new run of it comes with one of its consumers.
  ghost predicate Together(c: Config, s: State, started: set<nat>) {
    forall p :: 0 <= p < |c.panels| && Fed(c, p) && Src(c, p) < BootIndex(c, s) && Src(c, p) in started ==> p in started
  }

  // Every panel the boot passes, it starts.
  ghost predicate BootStarts(c: Config, s: State, t: State, started: set<nat>) {
    && BootIndex(c, s) <= BootIndex(c, t) <= |c.panels|
    && forall p :: BootIndex(c, s) <= p < BootIndex(c, t) ==> p in started
  }

  lemma AfterInstalling(c: Config, s: State, t: State, u: State, started: set<nat>)
    requires Starts(c, s, t, {}) && Starts(c, t, u, started) && Numbered(c, s)
    requires SameLoaded(t, u)
    ensures Starts(c, s, u, started)
  {
    hide Fed;
    forall q | 0 <= q < |s.panels|
      ensures StartsPanel(c, s, u, started, q)
    {
      assert StartsPanel(c, s, t, {}, q) && StartsPanel(c, t, u, started, q);
    }
    forall d | d in u.settled && d !in s.settled && d < s.nextDeferred
      ensures exists q :: 0 <= q < |s.panels| && s.panels[q].loaded == d
    {
      if d !in t.settled {
        var q :| 0 <= q < |t.panels| && t.panels[q].loaded == d;
        assert StartsPanel(c, s, t, {}, q);
      }
    }
  }

  // The parameters and the boot's position make no difference to this.
  lemma StartsFrom(c: Config, s: State, t: State, u: State, started: set<nat>)
    requires t == s.(params := t.params, boot := t.boot)
    ensures Starts(c, t, u, started) ==> Starts(c, s, u, started)
    ensures Numbered(c, s) ==> Numbered(c, t)
  {
    hide Fed;
    if Starts(c, t, u, started) {
      forall q | 0 <= q < |s.panels|
        ensures StartsPanel(c, s, u, started, q)
      {
        assert StartsPanel(c, t, u, started, q);
      }
    }
  }

  lemma ChangeStarts(c: Config, s: State, name: string, params: Params) returns (started: set<nat>)
    requires Numbered(c, s) && BootIndex(c, s) <= |c.panels|
    ensures |s.panels| == |c.panels|
    ensures var t := Change(c, s, name, params);
            Starts(c, s, t, started) && Together(c, s, started) && BootStarts(c, s, t, started)
  {
    var order, s1 := RerunOrder(c, name), s.(params := params);
    started := Elements(order);
    RerunIsLeastClosure(c, name);
    var t := Change(c, s, name, params);
    StartsFrom(c, s, s1, t, started);
    InstallAllStarts(c, s1, order);
    var s2 := InstallAll(s1, order);
    StartAllStarts(c, s2, order);
    hide StartAll, InstallAll, RerunOrder, Starts, Numbered;
    AfterInstalling(c, s1, s2, t, started);
  }

  lemma BootEnds(c: Config, s: State)
    requires Numbered(c, s)
    ensures Starts(c, s, s.(boot := AllStarted), {})
  {
    hide Starts;
    NothingStarts(c, s.(boot := AllStarted));
    StartsFrom(c, s, s.(boot := AllStarted), s.(boot := AllStarted), {});
  }

  lemma BootStartsOne(c: Config, s: State, boot: Boot, next: nat)
    requires Numbered(c, s) && next < |c.panels|
    ensures Starts(c, s, StartRun(c, s.(boot := boot), next), {next})
  {
    var t := s.(boot := boot);
    StartsFrom(c, s, t, StartRun(c, t, next), {next});
    StartRunStarts(c, t, next);
    hide Starts, Numbered, StartRun;
  }

  lemma BootAtStarts(c: Config, s: State) returns (started: set<nat>)
    requires Numbered(c, s) && BootIndex(c, s) <= |c.panels| && !s.boot.AllStarted?
    ensures |s.panels| == |c.panels|
    ensures var t := BootAt(c, s, BootIndex(c, s));
            Starts(c, s, t, started) && Together(c, s, started) && BootStarts(c, s, t, started)
  {
    var next := BootIndex(c, s);
    hide Starts, StartRun, Fed;
    if next == |c.panels| {
      started := {};
      BootEnds(c, s);
    } else {
      started := {next};
      BootStartsOne(c, s, Waiting(next + 1, s.nextRun), next);
    }
  }

  lemma AllStart(c: Config, s: State)
    requires Numbered(c, s) && s.boot.NotStarted?
    ensures |s.panels| == |c.panels|
    ensures var t, all := StartAll(c, s.(boot := AllStarted), AllPanels(|c.panels|)), Elements(AllPanels(|c.panels|));
            Starts(c, s, t, all) && Together(c, s, all) && BootStarts(c, s, t, all)
  {
    var all, t := AllPanels(|c.panels|), s.(boot := AllStarted);
    StartsFrom(c, s, t, StartAll(c, t, all), Elements(all));
    StartAllStarts(c, t, all);
    hide Starts, Numbered;
    forall p | 0 <= p < |c.panels|
      ensures p in Elements(all)
    {
      assert all[p] == p;
    }
  }

  // Every event but a run coming back starts some set of panels, perhaps none.
  lemma EventStarts(c: Config, s: State, e: Event) returns (started: set<nat>)
    requires Shaped(c, s) && Enabled(c, s, e) && !e.Resume? && !e.Answer? && !e.Fault?
    requires Numbered(c, s) && BootIndex(c, s) <= |c.panels|
    ensures var t := Apply(c, s, e);
            Starts(c, s, t, started) && Together(c, s, started) && BootStarts(c, s, t, started)
  {
    hide Starts, Numbered, TrySet, Change, BootAt, StartAll;
    NothingStarts(c, s);
    started := {};
    match e
    case BootStart =>
      if c.concurrent {
        AllStart(c, s);
        started := Elements(AllPanels(|c.panels|));
      } else {
        started := BootAtStarts(c, s);
      }
    case BootNext => started := BootAtStarts(c, s);
    case SetParam(name, value) =>
      var next := TrySet(c.js, c.defs, s.params, name, value);
      if next.Some? {
        started := ChangeStarts(c, s, name, next.value);
      }
    case Commit(name, value) => started := ChangeStarts(c, s, name, s.params[name := value]);
  }
}
