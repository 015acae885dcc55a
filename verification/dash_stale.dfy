// When a panel may go on showing what an older parameter asked for: exactly when its query
// refers to a name that the search for affected queries does not find.
module DashStale {
  import opened Basics
  import opened Interpolate
  import opened ParamLaws
  import opened Dash
  import opened DashLaws

  type Transforms = (string, Rows, Params) -> Option<Rows>

  // After these events, panel p shows what the present parameters ask for.
  ghost predicate AsksPresent(c: Config, params: Params, es: seq<Event>, p: nat) {
    Possible(c, Initial(c, params), es) && p < |c.panels| && Queries(c, p) ==>
      var s := After(c, Initial(c, params), es);
      |s.panels| == |c.panels| && (s.panels[p].outcome.Ok? ==> s.panels[p].outcome.sql == Sql(c, s.params, p))
  }

  // In every dashboard and every run, a panel with this query does.
  ghost predicate NeverStale(js: Js, transforms: Transforms, query: string) {
    forall panels: seq<Panel>, defs, concurrent, params, es, p: nat :: p < |panels| && panels[p].query == query ==>
      AsksPresent(Config(panels, defs, js, transforms, concurrent), params, es, p)
  }

  function One(js: Js, transforms: Transforms, query: string): Config {
    Config([Panel("", "", query, "")], AllStrings(query), js, transforms, false)
  }

  function Shown(sql: string, params: Params): State {
    State([PanelState(1, [], 0, false, 1, Ok(Some(sql), map[]), Some(sql))], params, map[], 2, 1, {0}, Waiting(1, 1))
  }

  function Fetching(sql: string): State {
    State([PanelState(1, [], 0, true, 1, Pending, Some(sql))], map[], map[1 := AwaitFetch(0, 1, sql)], 2, 1, {}, Waiting(1, 1))
  }

  // A change of a name the search does not find re-runs nothing.
  lemma MissedReruns(js: Js, transforms: Transforms, query: string, name: string)
    requires name != "" && !Mentions(query, name)
    ensures RerunOrder(One(js, transforms, query), name) == []
  {
    var c := One(js, transforms, query);
    assert DirectFrom(c, name, 1) == [] && DirectFrom(c, name, 0) == [];
    assert Sweep(c, [], 1) == [] && Sweep(c, [], 0) == [];
  }

  lemma MissedRun(js: Js, transforms: Transforms, query: string, name: string, sql: string)
    requires var c := One(js, transforms, query);
             query != "" && Sql(c, map[], 0) == Some(sql) && RerunOrder(c, name) == [] && name in c.defs
    ensures var c, es := One(js, transforms, query), [BootStart, Answer(1, [], true), Commit(name, Str("a"))];
            Possible(c, Initial(c, map[]), es) && After(c, Initial(c, map[]), es) == Shown(sql, map[name := Str("a")])
  {
    hide Sql, RerunOrder, AllStrings;
    var c := One(js, transforms, query);
    var commit := Commit(name, Str("a"));
    var es := [BootStart, Answer(1, [], true), commit];
    var none: Params := map[];
    assert Enabled(c, Initial(c, none), BootStart) && Apply(c, Initial(c, none), BootStart) == Fetching(sql);
    assert Fetching(sql).runs - {1} == map[];
    assert Enabled(c, Fetching(sql), es[1]) && Apply(c, Fetching(sql), es[1]) == Shown(sql, none);
    assert Enabled(c, Shown(sql, none), commit) && Apply(c, Shown(sql, none), commit) == Shown(sql, none[name := Str("a")]);
    hide Apply, Initial, Shown, Fetching;
    var end := Shown(sql, none[name := Str("a")]);
    assert es[1..][1..] == [commit] && [commit][1..] == [];
    assert Possible(c, end, []) && After(c, end, []) == end;
    assert Possible(c, Shown(sql, none), [commit]) && After(c, Shown(sql, none), [commit]) == end;
    assert Possible(c, Fetching(sql), es[1..]) && After(c, Fetching(sql), es[1..]) == end;
  }

  // A query the search can miss leaves a panel stale, in a dashboard of that panel alone,
  // after one parameter change.
  lemma MissedGoesStale(js: Js, transforms: Transforms, query: string) returns (params: Params, es: seq<Event>)
    requires query != "" && !RefsMentioned(query)
    ensures !AsksPresent(One(js, transforms, query), params, es, 0)
  {
    hide Mentions, Pieces, AsksPresent;
    var c := One(js, transforms, query);
    var p :| p in Pieces(query) && p.Ref? && !Mentions(query, p.name);
    var k :| 0 <= k < |Pieces(query)| && Pieces(query)[k] == p;
    RefsAreIdents(query, 0);
    SubstituteGrows(js, AllStrings(query), Pieces(query), p.name);
    MissedReruns(js, transforms, query, p.name);
    params, es := map[], [BootStart, Answer(1, [], true), Commit(p.name, Str("a"))];
    MissedRun(js, transforms, query, p.name, Sql(c, map[], 0).value);
    assert Sql(c, map[p.name := Str("a")], 0) != Sql(c, map[], 0);
    StaleState(c, params, es, Sql(c, map[], 0).value, map[p.name := Str("a")]);
  }

  lemma StaleState(c: Config, params: Params, es: seq<Event>, sql: string, now: Params)
    requires Possible(c, Initial(c, params), es) && After(c, Initial(c, params), es) == Shown(sql, now)
    requires |c.panels| == 1 && Queries(c, 0) && Sql(c, now, 0) != Some(sql)
    ensures !AsksPresent(c, params, es, 0)
  {
  }

  lemma NeverStaleIff(js: Js, transforms: Transforms, query: string)
    requires query != ""
    ensures NeverStale(js, transforms, query) <==> RefsMentioned(query)
  {
    hide AsksPresent, RefsMentioned;
    if RefsMentioned(query) {
      forall panels: seq<Panel>, defs, concurrent, params, es, p: nat | p < |panels| && panels[p].query == query
        ensures AsksPresent(Config(panels, defs, js, transforms, concurrent), params, es, p)
      {
        MentionedIsPresent(Config(panels, defs, js, transforms, concurrent), params, es, p);
      }
    } else {
      var params, es := MissedGoesStale(js, transforms, query);
      var c := One(js, transforms, query);
      assert !AsksPresent(Config(c.panels, c.defs, js, transforms, false), params, es, 0);
    }
  }

  lemma MentionedIsPresent(c: Config, params: Params, es: seq<Event>, p: nat)
    requires p < |c.panels| && RefsMentioned(c.panels[p].query)
    ensures AsksPresent(c, params, es, p)
  {
    hide After, Possible, Sql, RefsMentioned, Initial;
    if Possible(c, Initial(c, params), es) {
      AgreementOverAllRuns(c, params, es, p);
    }
  }
}
