// The dashboard scheduler as a step system: every event is one uninterrupted turn of the
// JavaScript event loop.
module Dash {
  import opened Basics
  import opened Interpolate
  import opened ParamLaws

  type Row = map<string, string>
  type Rows = seq<Row>

  // id is the effective panel id; "" stands for an absent source, query or transform.
  datatype Panel = Panel(id: string, source: string, query: string, transform: string)

  // transforms runs a panel's transform body; None where it throws or returns no array.
  datatype Config = Config(panels: seq<Panel>, defs: Defs, js: Js,
                           transforms: (string, Rows, Params) -> Option<Rows>, concurrent: bool)

  // What became of a panel's newest run. Ok records what was asked: the SQL of a query
  // panel, and the parameters at the time the rows were written.
  datatype Outcome = Idle | Pending | Ok(sql: Option<string>, params: Params) | Failed

  // loaded identifies the current deferred; unresolved means its resolver is still held.
  // The last three fields are history, not read by any step: the number and the outcome
  // of the newest run, and what it asked of the server (None if interpolation threw).
  datatype PanelState = PanelState(epoch: nat, rows: Rows, loaded: nat, unresolved: bool,
                                   newest: nat, outcome: Outcome, sql: Option<string>)

  // A suspended run.
  datatype Run =
    | AwaitSource(panel: nat, epoch: nat, deferred: nat)
    | AwaitFetch(panel: nat, epoch: nat, sql: string)

  // Waiting: the sequential boot awaits a run, and then starts panel next.
  datatype Boot = NotStarted | Waiting(next: nat, run: nat) | AllStarted

  datatype State = State(panels: seq<PanelState>, params: Params, runs: map<nat, Run>,
                         nextRun: nat, nextDeferred: nat, settled: set<nat>, boot: Boot)

  // --- Sources ---

  // The panel with this id, or |panels|.
  function FindPanel(panels: seq<Panel>, id: string, k: nat := 0): (i: nat)
    requires k <= |panels|
    ensures k <= i <= |panels|
    ensures i < |panels| ==> panels[i].id == id
    decreases |panels| - k
  {
    if k == |panels| || panels[k].id == id then k else FindPanel(panels, id, k + 1)
  }

  function Src(c: Config, p: nat): (s: nat)
    requires p < |c.panels|
    ensures s <= |c.panels|
  {
    if c.panels[p].source == "" then |c.panels| else FindPanel(c.panels, c.panels[p].source)
  }

  // A panel fed by an earlier panel.
  predicate Fed(c: Config, p: nat)
    requires p < |c.panels|
  {
    c.panels[p].source != "" && c.panels[p].query == "" && Src(c, p) < p
  }

  predicate Queries(c: Config, p: nat)
    requires p < |c.panels|
  {
    c.panels[p].source == "" && c.panels[p].query != ""
  }

  // --- One run ---

  // resolveLoaded: the current deferred of p is settled, unless it was already.
  function Resolved(s: State, p: nat): set<nat>
    requires p < |s.panels|
  {
    if s.panels[p].unresolved then s.settled + {s.panels[p].loaded} else s.settled
  }

  // A run of p ends with ps as the panel's state, and resolves its deferred.
  function Finish(s: State, p: nat, ps: PanelState, o: Outcome): State
    requires p < |s.panels|
  {
    s.(panels := s.panels[p := ps.(outcome := o, unresolved := false)], settled := Resolved(s, p))
  }

  function Sql(c: Config, params: Params, p: nat): Option<string>
    requires p < |c.panels|
  {
    Interpolated(c.js, c.defs, params, c.panels[p].query)
  }

  // What _runPanel does before its first await: suspend, or be done already.
  datatype Launch = Suspend(run: Run, asked: Option<string>) | Done(outcome: Outcome, asked: Option<string>)

  function Launched(c: Config, s: State, p: nat): (launch: Launch)
    requires |s.panels| == |c.panels| && p < |c.panels|
    ensures launch.Done? ==> launch.outcome.Ok? || launch.outcome.Failed?
  {
    var panel, epoch, before := c.panels[p], s.panels[p].epoch + 1, s.panels[p].sql;
    if panel.source != "" then
      if Fed(c, p) then Suspend(AwaitSource(p, epoch, s.panels[Src(c, p)].loaded), before) else Done(Failed, before)
    else if panel.query == "" then Done(Ok(None, s.params), before)
    else
      var sql := Sql(c, s.params, p);
      if sql.None? then Done(Failed, None) else Suspend(AwaitFetch(p, epoch, sql.value), sql)
  }

  // A new run of p, as run number s.nextRun, up to its first await.
  function StartRun(c: Config, s: State, p: nat): (t: State)
    requires |s.panels| == |c.panels| && p < |c.panels|
    ensures |t.panels| == |s.panels| && t.boot == s.boot
  {
    var rid, launch := s.nextRun, Launched(c, s, p);
    var ps := s.panels[p].(epoch := s.panels[p].epoch + 1, newest := rid, sql := launch.asked);
    match launch
    case Suspend(run, _) =>
      s.(nextRun := rid + 1, runs := s.runs[rid := run], panels := s.panels[p := ps.(outcome := Pending)])
    case Done(o, _) => Finish(s.(nextRun := rid + 1), p, ps, o)
  }

  predicate Newest(s: State, run: Run)
    requires run.panel < |s.panels|
  {
    s.panels[run.panel].epoch == run.epoch
  }

  // Run r comes back with these rows and this outcome. A run that is no longer its
  // panel's newest does nothing.
  function Settle(s: State, r: nat, rows: Rows, o: Outcome): State
    requires r in s.runs && s.runs[r].panel < |s.panels|
  {
    var p, t := s.runs[r].panel, s.(runs := s.runs - {r});
    if Newest(s, s.runs[r]) then Finish(t, p, s.panels[p].(rows := rows), o) else t
  }

  function Transformed(c: Config, p: nat, rows: Rows, params: Params): Option<Rows>
    requires p < |c.panels|
  {
    if c.panels[p].transform == "" then Some(rows) else c.transforms(c.panels[p].transform, rows, params)
  }

  function ResumeSource(c: Config, s: State, r: nat): State
    requires |s.panels| == |c.panels| && r in s.runs && s.runs[r].AwaitSource? && s.runs[r].panel < |c.panels|
    requires Src(c, s.runs[r].panel) < |c.panels|
  {
    var p := s.runs[r].panel;
    var rows := Transformed(c, p, s.panels[Src(c, p)].rows, s.params);
    if rows.None? then Settle(s, r, s.panels[p].rows, Failed) else Settle(s, r, rows.value, Ok(None, s.params))
  }

  // A fetch answered; a renderer that throws turns the run into a failed one.
  function FetchOk(s: State, r: nat, rows: Rows, renders: bool): State
    requires r in s.runs && s.runs[r].AwaitFetch? && s.runs[r].panel < |s.panels|
  {
    Settle(s, r, rows, if renders then Ok(Some(s.runs[r].sql), s.params) else Failed)
  }

  function FetchErr(s: State, r: nat): State
    requires r in s.runs && s.runs[r].panel < |s.panels|
  {
    Settle(s, r, s.panels[s.runs[r].panel].rows, Failed)
  }

  // --- Re-runs ---

  predicate DirectlyAffected(c: Config, name: string, p: nat)
    requires p < |c.panels|
  {
    name == "" || (c.panels[p].query != "" && Mentions(c.panels[p].query, name))
  }

  function DirectFrom(c: Config, name: string, i: nat): seq<nat>
    requires i <= |c.panels|
    decreases |c.panels| - i
  {
    if i == |c.panels| then []
    else (if DirectlyAffected(c, name, i) then [i] else []) + DirectFrom(c, name, i + 1)
  }

  predicate Joins(c: Config, affected: seq<nat>, p: nat)
    requires p < |c.panels|
  {
    p !in affected && c.panels[p].source != "" && Src(c, p) in affected
  }

  // One pass over the panels from i on, in insertion order.
  function Sweep(c: Config, affected: seq<nat>, i: nat): (r: seq<nat>)
    requires i <= |c.panels|
    ensures affected <= r
    decreases |c.panels| - i
  {
    if i == |c.panels| then affected
    else Sweep(c, if Joins(c, affected, i) then affected + [i] else affected, i + 1)
  }

  ghost predicate Distinct(order: seq<nat>, n: nat) {
    && (forall i :: 0 <= i < |order| ==> order[i] < n)
    && (forall i, j :: 0 <= i < j < |order| ==> order[i] != order[j])
  }

  lemma {:induction false} SweepDistinct(c: Config, affected: seq<nat>, i: nat)
    requires i <= |c.panels| && Distinct(affected, |c.panels|)
    ensures Distinct(Sweep(c, affected, i), |c.panels|)
    decreases |c.panels| - i
  {
    hide Src;
    if i < |c.panels| {
      SweepDistinct(c, if Joins(c, affected, i) then affected + [i] else affected, i + 1);
    }
  }

  lemma {:induction false} DistinctBounded(order: seq<nat>, n: nat)
    requires Distinct(order, n)
    ensures |order| <= n
  {
    if order != [] {
      assert order[0] < n;
      if k :| 0 <= k < |order| && order[k] == n - 1 {
        DistinctBounded(order[..k] + order[k + 1..], n - 1);
      } else {
        DistinctBounded(order, n - 1);
      }
    }
  }

  // Sweeps until one adds nothing.
  function Sweeps(c: Config, affected: seq<nat>): (r: seq<nat>)
    requires Distinct(affected, |c.panels|)
    ensures Distinct(r, |c.panels|)
    decreases |c.panels| - |affected|
  {
    SweepDistinct(c, affected, 0);
    DistinctBounded(Sweep(c, affected, 0), |c.panels|);
    var r := Sweep(c, affected, 0);
    if |r| == |affected| then r else Sweeps(c, r)
  }

  lemma {:induction false} DirectDistinct(c: Config, name: string, i: nat)
    requires i <= |c.panels|
    ensures Distinct(DirectFrom(c, name, i), |c.panels|)
    ensures forall p :: p in DirectFrom(c, name, i) <==> i <= p < |c.panels| && DirectlyAffected(c, name, p)
    decreases |c.panels| - i
  {
    if i < |c.panels| {
      DirectDistinct(c, name, i + 1);
    }
  }

  // The affected panels, in the order their runs start.
  function RerunOrder(c: Config, name: string): (order: seq<nat>)
    ensures Distinct(order, |c.panels|)
  {
    DirectDistinct(c, name, 0);
    Sweeps(c, DirectFrom(c, name, 0))
  }

  // --- The closure of a re-run ---

  ghost predicate ClosedUnder(c: Config, set_: set<nat>) {
    forall p :: 0 <= p < |c.panels| && c.panels[p].source != "" && Src(c, p) in set_ ==> p in set_
  }

  function Elements(order: seq<nat>): set<nat> {
    set p | p in order
  }

  ghost predicate IsLeastClosure(c: Config, name: string, set_: set<nat>) {
    && (forall p :: p in set_ ==> p < |c.panels|)
    && (forall p :: 0 <= p < |c.panels| && DirectlyAffected(c, name, p) ==> p in set_)
    && ClosedUnder(c, set_)
    && forall other: set<nat> ::
         (forall p :: 0 <= p < |c.panels| && DirectlyAffected(c, name, p) ==> p in other) && ClosedUnder(c, other) ==> set_ <= other
  }

  function Install(s: State, p: nat): State
    requires p < |s.panels|
  {
    s.(panels := s.panels[p := s.panels[p].(loaded := s.nextDeferred, unresolved := true)],
       nextDeferred := s.nextDeferred + 1)
  }

  function InstallAll(s: State, order: seq<nat>): (t: State)
    requires forall i :: 0 <= i < |order| ==> order[i] < |s.panels|
    ensures |t.panels| == |s.panels| && t.boot == s.boot && t.runs == s.runs && t.nextRun == s.nextRun
    decreases |order|
  {
    if order == [] then s else Install(InstallAll(s, order[..|order| - 1]), order[|order| - 1])
  }

  function StartAll(c: Config, s: State, order: seq<nat>): (t: State)
    requires |s.panels| == |c.panels| && forall i :: 0 <= i < |order| ==> order[i] < |s.panels|
    ensures |t.panels| == |s.panels| && t.boot == s.boot
    decreases |order|
  {
    if order == [] then s else StartRun(c, StartAll(c, s, order[..|order| - 1]), order[|order| - 1])
  }

  // Fresh deferreds for every affected panel first, then the new runs.
  function Rerun(c: Config, s: State, order: seq<nat>): State
    requires |s.panels| == |c.panels| && forall i :: 0 <= i < |order| ==> order[i] < |s.panels|
  {
    StartAll(c, InstallAll(s, order), order)
  }

  // --- Events ---

  datatype Event =
    | BootStart
    | BootNext
    | Resume(r: nat)
    | Answer(r: nat, rows: Rows, renders: bool)
    | Fault(r: nat)
    | SetParam(name: string, value: Value)
    | Commit(name: string, value: Value) // the toolbar stores without validating

  function Initial(c: Config, params: Params): State {
    var n := |c.panels|;
    State(seq(n, i requires 0 <= i < n => PanelState(0, [], i, true, 0, Idle, None)),
          params, map[], 1, n, {}, NotStarted)
  }

  predicate Shaped(c: Config, s: State) {
    && |s.panels| == |c.panels|
    && (forall r | r in s.runs :: s.runs[r].panel < |c.panels| && (s.runs[r].AwaitSource? ==> Fed(c, s.runs[r].panel)))
  }

  predicate Enabled(c: Config, s: State, e: Event)
    requires Shaped(c, s)
  {
    match e
    case BootStart => s.boot.NotStarted?
    case BootNext => s.boot.Waiting? && s.boot.run !in s.runs && s.boot.next <= |c.panels|
    case Resume(r) => r in s.runs && s.runs[r].AwaitSource? && s.runs[r].deferred in s.settled
    case Answer(r, _, _) => r in s.runs && s.runs[r].AwaitFetch?
    case Fault(r) => r in s.runs && s.runs[r].AwaitFetch?
    case SetParam(_, _) => !s.boot.NotStarted?
    case Commit(name, _) => !s.boot.NotStarted? && name in c.defs
  }

  function AllPanels(n: nat): (all: seq<nat>)
    ensures Distinct(all, n)
  {
    seq(n, i requires 0 <= i < n => i)
  }

  // boot from panel next on: start one and await it, or be done.
  function BootAt(c: Config, s: State, next: nat): State
    requires |s.panels| == |c.panels| && next <= |c.panels|
  {
    if next == |c.panels| then s.(boot := AllStarted)
    else StartRun(c, s.(boot := Waiting(next + 1, s.nextRun)), next)
  }

  function Change(c: Config, s: State, name: string, params: Params): State
    requires |s.panels| == |c.panels|
  {
    Rerun(c, s.(params := params), RerunOrder(c, name))
  }

  function Apply(c: Config, s: State, e: Event): State
    requires Shaped(c, s) && Enabled(c, s, e)
  {
    match e
    case BootStart =>
      if c.concurrent then StartAll(c, s.(boot := AllStarted), AllPanels(|c.panels|)) else BootAt(c, s, 0)
    case BootNext => BootAt(c, s, s.boot.next)
    case Resume(r) => ResumeSource(c, s, r)
    case Answer(r, rows, renders) => FetchOk(s, r, rows, renders)
    case Fault(r) => FetchErr(s, r)
    case SetParam(name, value) =>
      var next := TrySet(c.js, c.defs, s.params, name, value);
      if next.None? then s else Change(c, s, name, next.value)
    case Commit(name, value) => Change(c, s, name, s.params[name := value])
  }
}
