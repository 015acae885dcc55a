// The runtime itself, updating its state in place; every method is one turn, or part of
// one, of the step system in Dash.
module DashRuntime {
  import opened Basics
  import opened Interpolate
  import opened ParamLaws
  import opened Dash

  class SpecRuntime {
    const c: Config
    var panels: seq<PanelState>
    var params: Params
    var runs: map<nat, Run>
    var nextRun: nat
    var nextDeferred: nat
    var settled: set<nat>
    var boot: Boot

    function View(): State
      reads this
    {
      State(panels, params, runs, nextRun, nextDeferred, settled, boot)
    }

    constructor (c: Config, defaults: Params)
      ensures this.c == c && View() == Initial(c, defaults)
    {
      this.c := c;
      var n := |c.panels|;
      panels := seq(n, i requires 0 <= i < n => PanelState(0, [], i, true, 0, Idle, None));
      params, runs, nextRun, nextDeferred, settled, boot := defaults, map[], 1, n, {}, NotStarted;
    }

    method InstallLoadedDeferred(p: nat)
      requires p < |panels|
      modifies this
      ensures View() == Install(old(View()), p)
    {
      panels := panels[p := panels[p].(loaded := nextDeferred, unresolved := true)];
      nextDeferred := nextDeferred + 1;
    }

    method ResolveLoaded(p: nat)
      requires p < |panels|
      modifies this
      ensures View() == old(View().(panels := panels[p := panels[p].(unresolved := false)], settled := Resolved(View(), p)))
    {
      if panels[p].unresolved {
        settled := settled + {panels[p].loaded};
        panels := panels[p := panels[p].(unresolved := false)];
      }
    }

    // A run ends: its outcome is recorded and its panel's deferred resolved.
    method Conclude(p: nat, o: Outcome)
      requires p < |panels|
      modifies this
      ensures View() == Finish(old(View()), p, old(panels[p]), o)
    {
      panels := panels[p := panels[p].(outcome := o)];
      ResolveLoaded(p);
    }

    method Await(p: nat, rid: nat, run: Run)
      requires p < |panels|
      modifies this
      ensures View() == old(View().(runs := runs[rid := run], panels := panels[p := panels[p].(outcome := Pending)]))
    {
      runs := runs[rid := run];
      panels := panels[p := panels[p].(outcome := Pending)];
    }

    // _runPanel up to its first await.
    method RunPanel(p: nat)
      requires |panels| == |c.panels| && p < |panels|
      modifies this
      ensures View() == StartRun(c, old(View()), p)
    {
      var panel, rid := c.panels[p], nextRun;
      nextRun := nextRun + 1;
      panels := panels[p := panels[p].(epoch := panels[p].epoch + 1, newest := rid)];
      var epoch := panels[p].epoch;
      if panel.source != "" {
        var src := Src(c, p);
        if panel.query != "" || src == |panels| || src >= p {
          Conclude(p, Failed);
        } else {
          Await(p, rid, AwaitSource(p, epoch, panels[src].loaded));
        }
        return;
      }
      if panel.query == "" {
        Conclude(p, Ok(None, params));
        return;
      }
      var sql := Sql(c, params, p);
      panels := panels[p := panels[p].(sql := sql)];
      if sql.None? {
        Conclude(p, Failed);
      } else {
        Await(p, rid, AwaitFetch(p, epoch, sql.value));
      }
    }

    // A suspended run goes on, if it is still its panel's newest.
    method ComeBack(r: nat, rows: Rows, o: Outcome)
      requires r in runs && runs[r].panel < |panels|
      modifies this
      ensures View() == Settle(old(View()), r, rows, o)
    {
      var run := runs[r];
      runs := runs - {r};
      if panels[run.panel].epoch != run.epoch {
        return;
      }
      panels := panels[run.panel := panels[run.panel].(rows := rows)];
      Conclude(run.panel, o);
    }

    method Resume(r: nat)
      requires |panels| == |c.panels| && r in runs && runs[r].AwaitSource? && runs[r].panel < |c.panels|
      requires Src(c, runs[r].panel) < |c.panels|
      modifies this
      ensures View() == ResumeSource(c, old(View()), r)
    {
      var p := runs[r].panel;
      var rows := panels[Src(c, p)].rows;
      if c.panels[p].transform != "" {
        var out := c.transforms(c.panels[p].transform, rows, params);
        if out.None? {
          ComeBack(r, panels[p].rows, Failed);
          return;
        }
        rows := out.value;
      }
      ComeBack(r, rows, Ok(None, params));
    }

    method Answered(r: nat, rows: Rows, renders: bool)
      requires r in runs && runs[r].AwaitFetch? && runs[r].panel < |panels|
      modifies this
      ensures View() == FetchOk(old(View()), r, rows, renders)
    {
      ComeBack(r, rows, if renders then Ok(Some(runs[r].sql), params) else Failed);
    }

    method Faulted(r: nat)
      requires r in runs && runs[r].panel < |panels|
      modifies this
      ensures View() == FetchErr(old(View()), r)
    {
      ComeBack(r, panels[runs[r].panel].rows, Failed);
    }

    // --- Re-runs ---

    // The panels the change touches directly, in panel order.
    method Directly(name: string) returns (affected: seq<nat>)
      ensures affected == DirectFrom(c, name, 0)
    {
      affected := [];
      for p := 0 to |c.panels|
        invariant DirectFrom(c, name, 0) == affected + DirectFrom(c, name, p)
      {
        if DirectlyAffected(c, name, p) {
          affected := affected + [p];
        }
      }
    }

    // Sweep the panels for consumers of affected sources until a sweep adds none.
    method CloseOverSources(direct: seq<nat>) returns (affected: seq<nat>)
      requires Distinct(direct, |c.panels|)
      ensures affected == Sweeps(c, direct)
    {
      affected := direct;
      var grew := true;
      while grew
        invariant Distinct(affected, |c.panels|)
        invariant Sweeps(c, direct) == if grew then Sweeps(c, affected) else affected
        decreases |c.panels| - |affected|, grew
      {
        ghost var before := affected;
        grew := false;
        SweepDistinct(c, before, 0);
        DistinctBounded(before, |c.panels|);
        for p := 0 to |c.panels|
          invariant before <= affected && (grew <==> |affected| > |before|)
          invariant Sweep(c, before, 0) == Sweep(c, affected, p)
        {
          if Joins(c, affected, p) {
            affected := affected + [p];
            grew := true;
          }
        }
        DistinctBounded(affected, |c.panels|);
      }
    }

    method InstallEach(order: seq<nat>)
      requires |panels| == |c.panels| && Distinct(order, |c.panels|)
      modifies this
      ensures View() == InstallAll(old(View()), order) && |panels| == |c.panels|
    {
      for i := 0 to |order|
        invariant |panels| == |c.panels|
        invariant View() == InstallAll(old(View()), order[..i])
      {
        InstallLoadedDeferred(order[i]);
        assert order[..i + 1][..i] == order[..i];
      }
      assert order[..|order|] == order;
    }

    method RunEach(order: seq<nat>)
      requires |panels| == |c.panels| && Distinct(order, |c.panels|)
      modifies this
      ensures View() == StartAll(c, old(View()), order) && |panels| == |c.panels|
    {
      hide StartRun;
      for i := 0 to |order|
        invariant |panels| == |c.panels|
        invariant View() == StartAll(c, old(View()), order[..i])
      {
        RunPanel(order[i]);
        assert order[..i + 1][..i] == order[..i];
      }
      assert order[..|order|] == order;
    }

    // _rerun: fresh deferreds for all affected panels, and only then their new runs.
    method RerunAffected(name: string)
      requires |panels| == |c.panels|
      modifies this
      ensures View() == Rerun(c, old(View()), RerunOrder(c, name))
    {
      hide InstallAll, StartAll, Sweeps, DirectFrom;
      var direct := Directly(name);
      DirectDistinct(c, name, 0);
      var order := CloseOverSources(direct);
      InstallEach(order);
      RunEach(order);
    }

    // Stores the coerced value, probes it, and takes it back when the probe fails.
    method SetParam(name: string, value: Value) returns (accepted: bool)
      requires |panels| == |c.panels|
      modifies this
      ensures var next := TrySet(c.js, c.defs, old(params), name, value);
              && accepted == next.Some?
              && View() == if accepted then Change(c, old(View()), name, next.value) else old(View())
    {
      hide Coerced, Interpolated, Probe, RerunOrder, Rerun;
      if name !in c.defs {
        return false;
      }
      var coerced := Coerced(c.js, c.defs[name], value);
      if coerced.None? {
        return false;
      }
      var prev := params;
      params := params[name := coerced.value];
      if Interpolated(c.js, c.defs, params, Probe(name)).None? {
        params := if name in prev then params[name := prev[name]] else params - {name};
        assert params == prev;
        return false;
      }
      RerunAffected(name);
      return true;
    }

    // The toolbar stores what was typed, without validating it.
    method CommitParam(name: string, value: Value)
      requires |panels| == |c.panels|
      modifies this
      ensures View() == Change(c, old(View()), name, old(params)[name := value])
    {
      params := params[name := value];
      RerunAffected(name);
    }

    // --- The boot ---

    method BootFrom(next: nat)
      requires |panels| == |c.panels| && next <= |panels|
      modifies this
      ensures View() == BootAt(c, old(View()), next)
    {
      if next == |panels| {
        boot := AllStarted;
      } else {
        boot := Waiting(next + 1, nextRun);
        RunPanel(next);
      }
    }

    method BootAll()
      requires |panels| == |c.panels|
      modifies this
      ensures View() == StartAll(c, old(View()).(boot := AllStarted), AllPanels(|c.panels|))
    {
      boot := AllStarted;
      RunEach(AllPanels(|c.panels|));
    }

    // The event loop: whichever event happens, the state moves as the step system says.
    method Handle(e: Event)
      requires Shaped(c, View()) && Enabled(c, View(), e)
      modifies this
      ensures View() == Apply(c, old(View()), e)
    {
      match e
      case BootStart =>
        if c.concurrent {
          BootAll();
        } else {
          BootFrom(0);
        }
      case BootNext => BootFrom(boot.next);
      case Resume(r) => Resume(r);
      case Answer(r, rows, renders) => Answered(r, rows, renders);
      case Fault(r) => Faulted(r);
      case SetParam(name, value) => var _ := SetParam(name, value);
      case Commit(name, value) => CommitParam(name, value);
    }
  }
}
