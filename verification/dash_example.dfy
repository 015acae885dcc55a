// A sequential boot that parameter changes stall for good, leaving a finished panel
// behind its source.
module DashExample {
  import opened Basics
  import opened Interpolate
  import opened ParamLaws
  import opened Dash
  import opened DashInvariant
  import opened DashLaws
  import opened DashStall

  const STRING := StringType(0, "")
  const PARAMS: Params := map["x" := Str(""), "y" := Str("")]

  // Queries a and s; m shows a's rows, and c shows s's.
  function Four(js: Js, transforms: (string, Rows, Params) -> Option<Rows>): (c: Config)
    ensures c.js == js && c.transforms == transforms && |c.panels| == 4
  {
    Config([Panel("a", "", Probe("y"), ""), Panel("s", "", Probe("x"), ""),
            Panel("m", "a", "", ""), Panel("c", "s", "", "")],
           map["x" := STRING, "y" := STRING], js, transforms, false)
  }

  function Steps(): (es: seq<Event>)
    ensures |es| == 13
  {
    [BootStart, Commit("x", Str("")), Fault(2), Resume(3), Commit("y", Str("")),
     Fault(1), BootNext, Answer(6, [map[]], true), BootNext, Commit("y", Str("")),
     Fault(4), Fault(8), Resume(9)]
  }

  // What matters of it: who feeds whom, what is asked, and what a change re-runs.
  ghost predicate Plan(c: Config, x: string, y: string) {
    && |c.panels| == 4 && !c.concurrent && "x" in c.defs && "y" in c.defs
    && Queries(c, 0) && Queries(c, 1) && Sql(c, PARAMS, 0) == Some(y) && Sql(c, PARAMS, 1) == Some(x)
    && Fed(c, 2) && Src(c, 2) == 0 && c.panels[2].transform == ""
    && Fed(c, 3) && Src(c, 3) == 1 && c.panels[3].transform == ""
    && RerunOrder(c, "x") == [1, 3] && RerunOrder(c, "y") == [0, 2]
  }

  lemma Sources(js: Js, transforms: (string, Rows, Params) -> Option<Rows>)
    ensures var c := Four(js, transforms); Src(c, 0) == 4 && Src(c, 1) == 4 && Src(c, 2) == 0 && Src(c, 3) == 1
  {
    var ps := Four(js, transforms).panels;
    assert FindPanel(ps, "a", 0) == 0;
    assert FindPanel(ps, "s", 1) == 1;
    assert FindPanel(ps, "s", 0) == 1;
  }

  lemma Found(name: string, other: string)
    requires (name == "x" && other == "y") || (name == "y" && other == "x")
    ensures Mentions(Probe(name), name) && !Mentions(Probe(name), other)
    ensures !Mentions("", name)
  {
    SearchSeesIff("", name, "");
    ProbeIsSpaced(name);
    var t := Probe(name);
    OnlyAtStart(t, "{{" + other + "}}");
    OnlyAtStart(t, "{{ " + other);
    assert t[2] == name[0] && ("{{" + other + "}}")[2] == other[0] && ("{{ " + other)[2] == ' ';
  }

  lemma Asked(js: Js, transforms: (string, Rows, Params) -> Option<Rows>)
    ensures var c := Four(js, transforms); Sql(c, PARAMS, 0).Some? && Sql(c, PARAMS, 1).Some?
  {
    hide Interpolated, Probe, Src;
    Renders(js, "x");
    Renders(js, "y");
  }

  lemma Renders(js: Js, name: string)
    ensures name == "x" || name == "y" ==>
              Interpolated(js, map["x" := STRING, "y" := STRING], PARAMS, Probe(name)).Some?
  {
    hide Interpolated, Probe, IsIdent;
    if name == "x" || name == "y" {
      ShortName(name);
      ProbeValidates(js, map["x" := STRING, "y" := STRING], PARAMS, name);
    }
  }

  lemma ShortName(name: string)
    ensures name == "x" || name == "y" ==> IsIdent(name)
  {
  }

  // A change of x re-runs s and c, a change of y re-runs a and m.
  lemma Reruns(js: Js, transforms: (string, Rows, Params) -> Option<Rows>)
    ensures var c := Four(js, transforms); RerunOrder(c, "x") == [1, 3] && RerunOrder(c, "y") == [0, 2]
  {
    var c := Four(js, transforms);
    Sources(js, transforms);
    Found("x", "y");
    Found("y", "x");
    hide Mentions, Probe;
    DirectIs(c, "x", 1);
    DirectIs(c, "y", 0);
    OneSweepSuffices(c, "x");
    OneSweepSuffices(c, "y");
    SweepIs(c, 1, 3);
    SweepIs(c, 0, 2);
  }

  lemma DirectIs(c: Config, name: string, p: nat)
    requires |c.panels| == 4 && name != "" && p < 2
    requires forall q :: 0 <= q < 4 ==> (DirectlyAffected(c, name, q) <==> q == p)
    ensures DirectFrom(c, name, 0) == [p]
  {
    hide DirectlyAffected;
    assert DirectFrom(c, name, 4) == [];
    assert DirectFrom(c, name, 3) == [];
    assert DirectFrom(c, name, 2) == [];
    assert DirectFrom(c, name, 1) == if p == 1 then [p] else [];
  }

  // The one panel that shows p's rows joins it.
  lemma SweepIs(c: Config, p: nat, q: nat)
    requires |c.panels| == 4 && 2 <= q < 4
    requires forall i :: 0 <= i < 4 ==> (Joins(c, [p], i) <==> i == q) && !Joins(c, [p, q], i)
    ensures Sweep(c, [p], 0) == [p, q]
  {
    assert [p] + [q] == [p, q];
    hide Joins;
    assert Sweep(c, [p, q], 4) == [p, q];
    assert q == 2 ==> Sweep(c, [p, q], 3) == [p, q];
    assert Sweep(c, [p], q) == [p, q];
    assert Sweep(c, [p], 2) == [p, q];
    assert Sweep(c, [p], 1) == [p, q];
  }

  lemma FourIsPlan(js: Js, transforms: (string, Rows, Params) -> Option<Rows>)
    ensures var c := Four(js, transforms);
            && Sql(c, PARAMS, 0).Some? && Sql(c, PARAMS, 1).Some?
            && Plan(c, Sql(c, PARAMS, 1).value, Sql(c, PARAMS, 0).value)
  {
    Sources(js, transforms);
    Asked(js, transforms);
    Reruns(js, transforms);
    ProbeIsSpaced("x");
    ProbeIsSpaced("y");
    hide Src, Probe, Sql, RerunOrder;
  }

  // --- The states it passes ---

  function At(a: PanelState, s: PanelState, m: PanelState, c: PanelState, runs: map<nat, Run>,
              nextRun: nat, nextDeferred: nat, settled: set<nat>, boot: Boot): State {
    State([a, s, m, c], PARAMS, runs, nextRun, nextDeferred, settled, boot)
  }

  function Untried(deferred: nat): PanelState {
    PanelState(0, [], deferred, true, 0, Idle, None)
  }

  // The newest run of the panel is under way; epoch, deferred and run are its numbers.
  function Underway(epoch: nat, deferred: nat, run: nat, sql: Option<string>): PanelState {
    PanelState(epoch, [], deferred, true, run, Pending, sql)
  }

  function Showing(run: nat): PanelState {
    PanelState(1, [], 5, false, run, Ok(None, PARAMS), None)
  }

  // Before the first change, y and x being the two queries as sent.
  function Started(y: string): State {
    At(Underway(1, 0, 1, Some(y)), Untried(1), Untried(2), Untried(3),
       map[1 := AwaitFetch(0, 1, y)], 2, 4, {}, Waiting(1, 1))
  }

  function XChanged(x: string, y: string): State {
    At(Underway(1, 0, 1, Some(y)), Underway(1, 4, 2, Some(x)), Untried(2), Underway(1, 5, 3, None),
       map[1 := AwaitFetch(0, 1, y), 2 := AwaitFetch(1, 1, x), 3 := AwaitSource(3, 1, 4)], 4, 6, {}, Waiting(1, 1))
  }

  function SFailed(x: string): PanelState {
    PanelState(1, [], 4, false, 2, Failed, Some(x))
  }

  function SRetried(x: string, rows: Rows, outcome: Outcome): PanelState {
    PanelState(2, rows, 4, false, 6, outcome, Some(x))
  }

  function Failing(x: string, y: string): State {
    XChanged(x, y).(panels := XChanged(x, y).panels[1 := SFailed(x)],
                    runs := map[1 := AwaitFetch(0, 1, y), 3 := AwaitSource(3, 1, 4)], settled := {4})
  }

  // c has finished, with s's old rows.
  function CFinished(x: string, y: string): State {
    At(Underway(1, 0, 1, Some(y)), SFailed(x), Untried(2), Showing(3),
       map[1 := AwaitFetch(0, 1, y)], 4, 6, {4, 5}, Waiting(1, 1))
  }

  function YChanged(x: string, y: string, first: map<nat, Run>): State {
    At(Underway(2, 6, 4, Some(y)), SFailed(x), Underway(1, 7, 5, None), Showing(3),
       first + map[4 := AwaitFetch(0, 2, y), 5 := AwaitSource(2, 1, 6)], 6, 8, {4, 5}, Waiting(1, 1))
  }

  // The boot has started s once more, and it answers.
  function SAnswered(x: string, y: string, rows: Rows, outcome: Outcome, own: map<nat, Run>): State {
    At(Underway(2, 6, 4, Some(y)), SRetried(x, rows, outcome), Underway(1, 7, 5, None), Showing(3),
       map[4 := AwaitFetch(0, 2, y), 5 := AwaitSource(2, 1, 6)] + own, 7, 8, {4, 5}, Waiting(2, 6))
  }

  // The boot awaits run 7 of m, which awaits a's deferred 6.
  function MBooted(x: string, y: string): State {
    At(Underway(2, 6, 4, Some(y)), SRetried(x, [map[]], Ok(Some(x), PARAMS)), Underway(2, 7, 7, None), Showing(3),
       map[4 := AwaitFetch(0, 2, y), 5 := AwaitSource(2, 1, 6), 7 := AwaitSource(2, 2, 6)], 8, 8, {4, 5}, Waiting(3, 7))
  }

  function Dropped(x: string, y: string): State {
    At(Underway(3, 8, 8, Some(y)), SRetried(x, [map[]], Ok(Some(x), PARAMS)), Underway(3, 9, 9, None), Showing(3),
       map[4 := AwaitFetch(0, 2, y), 5 := AwaitSource(2, 1, 6), 7 := AwaitSource(2, 2, 6),
           8 := AwaitFetch(0, 3, y), 9 := AwaitSource(2, 3, 8)], 10, 10, {4, 5}, Waiting(3, 7))
  }

  // Run 4 has failed too, to no effect.
  function Outdated(x: string, y: string): State {
    Dropped(x, y).(runs := map[5 := AwaitSource(2, 1, 6), 7 := AwaitSource(2, 2, 6),
                               8 := AwaitFetch(0, 3, y), 9 := AwaitSource(2, 3, 8)])
  }

  function AFailed(y: string): PanelState {
    PanelState(3, [], 8, false, 8, Failed, Some(y))
  }

  function ALost(x: string, y: string): State {
    At(AFailed(y), SRetried(x, [map[]], Ok(Some(x), PARAMS)), Underway(3, 9, 9, None), Showing(3),
       map[5 := AwaitSource(2, 1, 6), 7 := AwaitSource(2, 2, 6), 9 := AwaitSource(2, 3, 8)], 10, 10, {4, 5, 8}, Waiting(3, 7))
  }

  // Only runs that wait for the dropped deferred 6 are left.
  function Stuck(x: string, y: string): State {
    At(AFailed(y), SRetried(x, [map[]], Ok(Some(x), PARAMS)),
       PanelState(3, [], 9, false, 9, Ok(None, PARAMS), None), Showing(3),
       map[5 := AwaitSource(2, 1, 6), 7 := AwaitSource(2, 2, 6)], 10, 10, {4, 5, 8, 9}, Waiting(3, 7))
  }

  ghost predicate Step(c: Config, s: State, e: Event, t: State) {
    Shaped(c, s) && Enabled(c, s, e) && Apply(c, s, e) == t
  }

  lemma ChangeOfTwo(c: Config, s: State, name: string, p: nat, q: nat)
    requires |s.panels| == |c.panels| && RerunOrder(c, name) == [p, q] && p < |c.panels| && q < |c.panels|
    ensures Change(c, s, name, s.params) == StartRun(c, StartRun(c, Install(Install(s, p), q), p), q)
  {
    var order := [p, q];
    assert order[..1] == [p] && [p][..0] == [];
    assert s.(params := s.params) == s;
    hide StartRun, Install, RerunOrder;
    assert InstallAll(s, [p]) == Install(s, p);
    assert InstallAll(s, order) == Install(Install(s, p), q);
    var t := InstallAll(s, order);
    assert StartAll(c, t, [p]) == StartRun(c, t, p);
  }

  // The boot starts a query panel.
  function Asking(s: State, p: nat, sql: string): State
    requires p < |s.panels|
  {
    var a := s.panels[p];
    s.(panels := s.panels[p := a.(epoch := a.epoch + 1, newest := s.nextRun, outcome := Pending, sql := Some(sql))],
       runs := s.runs[s.nextRun := AwaitFetch(p, a.epoch + 1, sql)], nextRun := s.nextRun + 1,
       boot := Waiting(p + 1, s.nextRun))
  }

  lemma BootAsks(c: Config, s: State, e: Event, sql: string)
    requires Shaped(c, s) && Enabled(c, s, e) && (e == BootStart || e == BootNext) && !c.concurrent
    requires BootIndex(c, s) < |c.panels| && Queries(c, BootIndex(c, s)) && Sql(c, s.params, BootIndex(c, s)) == Some(sql)
    ensures Step(c, s, e, Asking(s, BootIndex(c, s), sql))
  {
    hide Sql, Src;
  }

  lemma AskingsAre(c: Config, x: string, y: string)
    ensures |c.panels| == 4 ==> Asking(Initial(c, PARAMS), 0, y) == Started(y)
    ensures Asking(YChanged(x, y, map[]), 1, x) == SAnswered(x, y, [], Pending, map[6 := AwaitFetch(1, 2, x)])
  {
    assert SAnswered(x, y, [], Pending, map[6 := AwaitFetch(1, 2, x)]).runs
        == YChanged(x, y, map[]).runs[6 := AwaitFetch(1, 2, x)];
  }

  lemma YReady(c: Config, x: string, y: string)
    ensures Plan(c, x, y) ==>
              var s := YChanged(x, y, map[]);
              Shaped(c, s) && Enabled(c, s, BootNext) && BootIndex(c, s) == 1 && s.params == PARAMS
  {
    hide Fed, Sql, RerunOrder;
  }

  lemma BootSteps(c: Config, x: string, y: string)
    ensures Plan(c, x, y) ==>
              && Step(c, Initial(c, PARAMS), BootStart, Started(y))
              && Step(c, YChanged(x, y, map[]), BootNext, SAnswered(x, y, [], Pending, map[6 := AwaitFetch(1, 2, x)]))
  {
    if Plan(c, x, y) {
      YReady(c, x, y);
      AskingsAre(c, x, y);
      hide Sql, Src, RerunOrder, Step, Queries, Asking, Started, YChanged, SAnswered;
      BootAsks(c, Initial(c, PARAMS), BootStart, y);
      BootAsks(c, YChanged(x, y, map[]), BootNext, x);
    }
  }

  lemma BootTriesM(c: Config, x: string, y: string)
    ensures Plan(c, x, y) ==> Step(c, SAnswered(x, y, [map[]], Ok(Some(x), PARAMS), map[]), BootNext, MBooted(x, y))
  {
    hide Sql, Src, RerunOrder;
    var s, t := SAnswered(x, y, [map[]], Ok(Some(x), PARAMS), map[]), MBooted(x, y);
    assert t.runs == s.runs[7 := AwaitSource(2, 2, 6)];
  }

  lemma SFails(c: Config, x: string, y: string)
    ensures Plan(c, x, y) ==> Step(c, XChanged(x, y), Fault(2), Failing(x, y))
  {
    hide Sql, Src, RerunOrder;
    assert Failing(x, y).runs == XChanged(x, y).runs - {2};
  }

  lemma CShows(c: Config, x: string, y: string)
    ensures Plan(c, x, y) ==> Step(c, Failing(x, y), Resume(3), CFinished(x, y))
  {
    hide Sql, Src, RerunOrder;
    assert CFinished(x, y).runs == Failing(x, y).runs - {3};
  }

  lemma FirstFails(c: Config, x: string, y: string)
    ensures Plan(c, x, y) ==>
              Step(c, YChanged(x, y, map[1 := AwaitFetch(0, 1, y)]), Fault(1), YChanged(x, y, map[]))
  {
    hide Sql, Src, RerunOrder;
    assert YChanged(x, y, map[]).runs == YChanged(x, y, map[1 := AwaitFetch(0, 1, y)]).runs - {1};
  }

  lemma SAnswers(c: Config, x: string, y: string)
    ensures Plan(c, x, y) ==>
              Step(c, SAnswered(x, y, [], Pending, map[6 := AwaitFetch(1, 2, x)]), Answer(6, [map[]], true),
                   SAnswered(x, y, [map[]], Ok(Some(x), PARAMS), map[]))
  {
    hide Sql, Src, RerunOrder, Fed;
    assert SAnswered(x, y, [map[]], Ok(Some(x), PARAMS), map[]).runs
        == SAnswered(x, y, [], Pending, map[6 := AwaitFetch(1, 2, x)]).runs - {6};
  }

  // A change that re-runs a query panel and the panel it feeds.
  function Pair(s: State, p: nat, q: nat, sql: string): State
    requires p < |s.panels| && q < |s.panels| && p != q
  {
    var d, r, a, b := s.nextDeferred, s.nextRun, s.panels[p], s.panels[q];
    s.(panels := s.panels[p := Underway(a.epoch + 1, d, r, Some(sql)).(rows := a.rows)]
                         [q := Underway(b.epoch + 1, d + 1, r + 1, b.sql).(rows := b.rows)],
       runs := s.runs[r := AwaitFetch(p, a.epoch + 1, sql)][r + 1 := AwaitSource(q, b.epoch + 1, d)],
       nextRun := r + 2, nextDeferred := d + 2)
  }

  lemma PairChanges(c: Config, s: State, name: string, p: nat, q: nat, sql: string)
    requires Shaped(c, s) && RerunOrder(c, name) == [p, q] && p < q < |c.panels|
    requires Queries(c, p) && Sql(c, s.params, p) == Some(sql) && Fed(c, q) && Src(c, q) == p
    requires name in c.defs && name in s.params && !s.boot.NotStarted?
    ensures Step(c, s, Commit(name, s.params[name]), Pair(s, p, q, sql))
  {
    hide Sql, Src, Change, RerunOrder;
    ChangeOfTwo(c, s, name, p, q);
    assert s.params[name := s.params[name]] == s.params;
    var u := Install(Install(s, p), q);
    var v := StartRun(c, u, p);
    assert Launched(c, u, p) == Suspend(AwaitFetch(p, s.panels[p].epoch + 1, sql), Some(sql));
    assert Launched(c, v, q) == Suspend(AwaitSource(q, s.panels[q].epoch + 1, s.nextDeferred), s.panels[q].sql);
    hide Launched;
    assert StartRun(c, v, q) == Pair(s, p, q, sql);
  }

  lemma PairsAre(x: string, y: string)
    ensures Pair(Started(y), 1, 3, x) == XChanged(x, y)
    ensures Pair(CFinished(x, y), 0, 2, y) == YChanged(x, y, map[1 := AwaitFetch(0, 1, y)])
    ensures Pair(MBooted(x, y), 0, 2, y) == Dropped(x, y)
  {
  }

  lemma XChanges(c: Config, x: string, y: string)
    ensures Plan(c, x, y) ==> Step(c, Started(y), Commit("x", Str("")), XChanged(x, y))
  {
    PairsAre(x, y);
    hide Sql, Src, Step, RerunOrder, XChanged, Pair, Queries, Fed;
    if Plan(c, x, y) {
      PairChanges(c, Started(y), "x", 1, 3, x);
    }
  }

  lemma YChanges(c: Config, x: string, y: string)
    ensures Plan(c, x, y) ==>
              && Step(c, CFinished(x, y), Commit("y", Str("")), YChanged(x, y, map[1 := AwaitFetch(0, 1, y)]))
              && Step(c, MBooted(x, y), Commit("y", Str("")), Dropped(x, y))
  {
    PairsAre(x, y);
    hide Sql, Src, Step, RerunOrder, YChanged, Dropped, Pair, Queries, Fed;
    if Plan(c, x, y) {
      PairChanges(c, CFinished(x, y), "y", 0, 2, y);
      PairChanges(c, MBooted(x, y), "y", 0, 2, y);
    }
  }

  lemma OldFails(c: Config, x: string, y: string)
    ensures Plan(c, x, y) ==> Step(c, Dropped(x, y), Fault(4), Outdated(x, y))
  {
    hide Sql, Src, RerunOrder, Fed;
    assert Outdated(x, y).runs == Dropped(x, y).runs - {4};
  }

  lemma AFails(c: Config, x: string, y: string)
    ensures Plan(c, x, y) ==> Step(c, Outdated(x, y), Fault(8), ALost(x, y))
  {
    hide Sql, Src, RerunOrder, Fed;
    assert ALost(x, y).runs == Outdated(x, y).runs - {8};
  }

  lemma MShows(c: Config, x: string, y: string)
    ensures Plan(c, x, y) ==> Step(c, ALost(x, y), Resume(9), Stuck(x, y))
  {
    hide Sql, Src, RerunOrder;
    assert Stuck(x, y).runs == ALost(x, y).runs - {9};
  }

  // --- Where it ends ---

  ghost predicate Leads(c: Config, s: State, es: seq<Event>, t: State) {
    Possible(c, s, es) && After(c, s, es) == t
  }

  lemma StepOn(c: Config, s: State, es: seq<Event>, k: nat, t: State, u: State)
    requires k < |es| && Leads(c, s, es[..k], t) && Step(c, t, es[k], u)
    ensures Leads(c, s, es[..k + 1], u)
  {
    hide Apply, Enabled, Shaped;
    assert [es[k]][1..] == [] && Possible(c, u, []);
    assert es[..k + 1] == es[..k] + [es[k]];
    Appended(c, s, es[..k], [es[k]]);
  }

  // The state after k steps.
  function Passed(c: Config, x: string, y: string, k: nat): State
    requires k <= 13
  {
    match k
    case 0 => Initial(c, PARAMS)
    case 1 => Started(y)
    case 2 => XChanged(x, y)
    case 3 => Failing(x, y)
    case 4 => CFinished(x, y)
    case 5 => YChanged(x, y, map[1 := AwaitFetch(0, 1, y)])
    case 6 => YChanged(x, y, map[])
    case 7 => SAnswered(x, y, [], Pending, map[6 := AwaitFetch(1, 2, x)])
    case 8 => SAnswered(x, y, [map[]], Ok(Some(x), PARAMS), map[])
    case 9 => MBooted(x, y)
    case 10 => Dropped(x, y)
    case 11 => Outdated(x, y)
    case 12 => ALost(x, y)
    case _ => Stuck(x, y)
  }

  lemma EachStep(c: Config, x: string, y: string, k: nat)
    requires k < 13
    ensures Plan(c, x, y) ==> Step(c, Passed(c, x, y, k), Steps()[k], Passed(c, x, y, k + 1))
  {
    hide Step, Plan, Initial, Started, XChanged, Failing, CFinished, YChanged, SAnswered, MBooted, Dropped, Outdated, ALost, Stuck;
    match k
    case 0 => BootSteps(c, x, y);
    case 1 => XChanges(c, x, y);
    case 2 => SFails(c, x, y);
    case 3 => CShows(c, x, y);
    case 4 => YChanges(c, x, y);
    case 5 => FirstFails(c, x, y);
    case 6 => BootSteps(c, x, y);
    case 7 => SAnswers(c, x, y);
    case 8 => BootTriesM(c, x, y);
    case 9 => YChanges(c, x, y);
    case 10 => OldFails(c, x, y);
    case 11 => AFails(c, x, y);
    case _ => MShows(c, x, y);
  }

  lemma {:induction false} Walk(c: Config, x: string, y: string, k: nat)
    requires k <= 13
    ensures Plan(c, x, y) ==> Leads(c, Initial(c, PARAMS), Steps()[..k], Passed(c, x, y, k))
  {
    hide *;
    if k == 0 {
      WalkStart(c, x, y);
    } else if Plan(c, x, y) {
      Walk(c, x, y, k - 1);
      EachStep(c, x, y, k - 1);
      StepOn(c, Initial(c, PARAMS), Steps(), k - 1, Passed(c, x, y, k - 1), Passed(c, x, y, k));
    }
  }

  lemma WalkStart(c: Config, x: string, y: string)
    ensures Leads(c, Initial(c, PARAMS), Steps()[..0], Passed(c, x, y, 0))
  {
    assert Steps()[..0] == [];
  }

  // A panel and its source that have both succeeded, and disagree.
  ghost predicate Disagree(c: Config, s: State, p: nat) {
    && |s.panels| == |c.panels| && p < |c.panels| && Fed(c, p)
    && s.panels[p].outcome.Ok? && s.panels[Src(c, p)].outcome.Ok?
    && Transformed(c, p, s.panels[Src(c, p)].rows, s.panels[p].outcome.params) != Some(s.panels[p].rows)
  }

  lemma StuckStalls(c: Config, x: string, y: string)
    ensures Plan(c, x, y) ==> Stalled(c, Stuck(x, y)) && Disagree(c, Stuck(x, y), 3) && Quiescent(c, Stuck(x, y))
  {
    hide Src, Sql, RerunOrder;
  }

  // Three changes of two parameters during the boot of four panels. In the end nothing is pending, the last
  // panel and its source have succeeded and disagree, and whatever follows, the boot will
  // never reach it.
  lemma ChangesCanStallBoot(js: Js, transforms: (string, Rows, Params) -> Option<Rows>)
    ensures var c := Four(js, transforms);
            && Possible(c, Initial(c, PARAMS), Steps())
            && var s := After(c, Initial(c, PARAMS), Steps());
               && Disagree(c, s, 3) && Stalled(c, s) && Quiescent(c, s)
               && forall es :: Possible(c, s, es) ==> After(c, s, es).boot == s.boot
  {
    var c := Four(js, transforms);
    hide *;
    FourIsPlan(js, transforms);
    var x, y := Sql(c, PARAMS, 1).value, Sql(c, PARAMS, 0).value;
    Walk(c, x, y, 13);
    Arrives(c, x, y);
    StuckStalls(c, x, y);
    InitialInv(c, PARAMS);
    RunInv(c, Initial(c, PARAMS), Steps());
    var s := Stuck(x, y);
    forall es | Possible(c, s, es)
      ensures After(c, s, es).boot == s.boot
    {
      StalledForEver(c, s, es);
    }
  }

  lemma Arrives(c: Config, x: string, y: string)
    ensures Leads(c, Initial(c, PARAMS), Steps()[..13], Passed(c, x, y, 13)) ==>
              Possible(c, Initial(c, PARAMS), Steps()) && After(c, Initial(c, PARAMS), Steps()) == Stuck(x, y)
  {
    hide Possible, After, Initial, Steps, Stuck;
    assert Steps()[..13] == Steps();
  }
}
