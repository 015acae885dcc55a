// Where what a panel shows comes from: the parameters and the source of the moment in
// which its newest run came back.
module DashHistory {
  import opened Basics
  import opened Interpolate
  import opened ParamLaws
  import opened Dash
  import opened DashInvariant
  import opened DashStarts
  import opened DashLaws
  import opened DashOvertaken

  // --- One event ---

  // What a fed panel shows after its run has taken the source's rows under these
  // parameters: the rows themselves, or what the panel's transform makes of them; a
  // transform that throws leaves what was there.
  ghost predicate Takes(c: Config, p: nat, source: Rows, params: Params, before: Rows, after: PanelState)
    requires p < |c.panels|
  {
    var body := c.panels[p].transform;
    if body == "" then after.rows == source && after.outcome == Ok(None, params)
    else
      match c.transforms(body, source, params)
      case Some(rows) => after.rows == rows && after.outcome == Ok(None, params)
      case None => after.rows == before && after.outcome == Failed
  }

  // A newest run that resumes takes the present rows of the panel named as its source,
  // under the present parameters.
  lemma ResumeShows(c: Config, s: State, r: nat)
    requires Shaped(c, s) && Enabled(c, s, Resume(r)) && Newest(s, s.runs[r])
    ensures var p, t := s.runs[r].panel, Apply(c, s, Resume(r));
            && |t.panels| == |s.panels| && Src(c, p) < p && c.panels[Src(c, p)].id == c.panels[p].source
            && Takes(c, p, s.panels[Src(c, p)].rows, s.params, s.panels[p].rows, t.panels[p])
  {
  }

  // A newest fetch that answers shows the answer, and records the query it had sent; one
  // that fails leaves the rows.
  lemma ReplyShows(c: Config, s: State, e: Event)
    requires Shaped(c, s) && Enabled(c, s, e) && (e.Answer? || e.Fault?) && Newest(s, s.runs[e.r])
    ensures var run, t := s.runs[e.r], Apply(c, s, e);
            && |t.panels| == |s.panels|
            && t.panels[run.panel].rows == (if e.Answer? then e.rows else s.panels[run.panel].rows)
            && t.panels[run.panel].outcome == (if e.Answer? && e.renders then Ok(Some(run.sql), s.params) else Failed)
  {
  }

  // A run that is no longer its panel's newest changes nothing by coming back.
  lemma OutdatedShowsNothing(c: Config, s: State, e: Event)
    requires Shaped(c, s) && Enabled(c, s, e) && (e.Resume? || e.Answer? || e.Fault?) && !Newest(s, s.runs[e.r])
    ensures Apply(c, s, e) == s.(runs := s.runs - {e.r})
  {
  }

  // What starting a panel does, by what the panel declares.
  lemma StartDoes(c: Config, s: State, p: nat)
    requires |s.panels| == |c.panels| && p < |c.panels|
    ensures var panel, t, epoch := c.panels[p], StartRun(c, s, p), s.panels[p].epoch + 1;
            && t.nextRun == s.nextRun + 1 && t.panels[p].epoch == epoch && t.panels[p].rows == s.panels[p].rows
            && (panel.source == "" && panel.query == "" ==> t.runs == s.runs && t.panels[p].outcome == Ok(None, s.params))
            && (panel.source == "" && panel.query != "" ==>
                  match Interpolated(c.js, c.defs, s.params, panel.query)
                  case None => t.runs == s.runs && t.panels[p].outcome == Failed
                  case Some(sql) =>
                    t.runs == s.runs[s.nextRun := AwaitFetch(p, epoch, sql)] && t.panels[p].outcome == Pending)
            && (panel.source != "" ==>
                  if panel.query == "" && Src(c, p) < p
                  then t.runs == s.runs[s.nextRun := AwaitSource(p, epoch, s.panels[Src(c, p)].loaded)]
                       && t.panels[p].outcome == Pending
                  else t.runs == s.runs && t.panels[p].outcome == Failed)
  {
    hide Interpolated;
  }

  ghost predicate Stands(text: string, part: string, i: nat) {
    i + |part| <= |text| && forall k :: 0 <= k < |part| ==> text[i + k] == part[k]
  }

  lemma ContainsIff(text: string, part: string)
    ensures Contains(text, part) <==> exists i :: Stands(text, part, i)
  {
    if Contains(text, part) {
      var i :| 0 <= i <= |text| && OccursAt(text, part, i);
      assert Stands(text, part, i);
    }
    if i :| Stands(text, part, i) {
      assert OccursAt(text, part, i);
    }
  }

  // A change re-runs directly the panels in whose query the text of the placeholder, or of
  // its beginning with one blank, stands somewhere; one without a name, all of them.
  lemma DirectlyIff(c: Config, name: string, p: nat)
    requires p < |c.panels|
    ensures DirectlyAffected(c, name, p) <==>
              || name == ""
              || (exists i :: Stands(c.panels[p].query, "{{" + name + "}}", i))
              || (exists i :: Stands(c.panels[p].query, "{{ " + name, i))
  {
    hide Stands;
    ContainsIff(c.panels[p].query, "{{" + name + "}}");
    ContainsIff(c.panels[p].query, "{{ " + name);
    hide OccursAt;
    if c.panels[p].query == "" {
      NothingStands("{{" + name + "}}");
      NothingStands("{{ " + name);
    }
    hide Contains;
  }

  lemma NothingStands(part: string)
    requires part != ""
    ensures forall i :: !Stands("", part, i)
  {
  }

  // The parameters change by accepted changes alone, and a rejected one changes nothing.
  lemma ParamsMove(c: Config, s: State, e: Event)
    requires Inv(c, s) && Shaped(c, s) && Enabled(c, s, e)
    ensures var t := Apply(c, s, e);
            match e
            case Commit(name, value) => t.params == s.params[name := value]
            case SetParam(name, value) =>
              if TrySet(c.js, c.defs, s.params, name, value).None? then t == s
              else name in c.defs && Coerced(c.js, c.defs[name], value).Some?
                   && t.params == s.params[name := Coerced(c.js, c.defs[name], value).value]
            case _ => t.params == s.params
  {
    hide Interpolated, Coerced, Probe, RerunOrder;
    if e.Resume? || e.Answer? || e.Fault? {
      var rows, o := ComesBack(c, s, e, e.r);
    }
    StartParams(c, s.(boot := AllStarted), AllPanels(|c.panels|));
    match e
    case Commit(name, value) => ChangeParams(c, s, name, s.params[name := value]);
    case SetParam(name, value) =>
      var next := TrySet(c.js, c.defs, s.params, name, value);
      if next.Some? {
        ChangeParams(c, s, name, next.value);
      }
    case _ =>
  }

  lemma {:induction false} StartParams(c: Config, s: State, order: seq<nat>)
    requires |s.panels| == |c.panels| && forall i :: 0 <= i < |order| ==> order[i] < |s.panels|
    ensures StartAll(c, s, order).params == s.params
    decreases |order|
  {
    hide Launched;
    if order != [] {
      StartParams(c, s, order[..|order| - 1]);
    }
  }

  lemma {:induction false} InstallParams(s: State, order: seq<nat>)
    requires forall i :: 0 <= i < |order| ==> order[i] < |s.panels|
    ensures InstallAll(s, order).params == s.params
    decreases |order|
  {
    if order != [] {
      InstallParams(s, order[..|order| - 1]);
    }
  }

  lemma ChangeParams(c: Config, s: State, name: string, params: Params)
    requires |s.panels| == |c.panels|
    ensures Change(c, s, name, params).params == params
  {
    hide InstallAll, StartAll, RerunOrder;
    var order, t := RerunOrder(c, name), s.(params := params);
    InstallParams(t, order);
    StartParams(c, InstallAll(t, order), order);
  }

  // --- Over all runs ---

  // Event k of the run brought panel p's present newest run back, and what p shows comes
  // from the state s of that moment: of a fed panel, the source's rows through the
  // transform under the parameters of s; of a query panel, the answer.
  ghost predicate CameFrom(c: Config, s: State, e: Event, p: nat, now: PanelState) {
    && |s.panels| == |c.panels| && p < |c.panels|
    && s.panels[p].newest == now.newest && Settles(e, now.newest)
    && (Fed(c, p) ==>
          e.Resume? && Takes(c, p, s.panels[Src(c, p)].rows, s.params, s.panels[p].rows, now))
    && (Queries(c, p) ==>
          e.Answer? && e.r in s.runs && s.runs[e.r].AwaitFetch? && now.rows == e.rows
          && now.outcome == Ok(Some(s.runs[e.r].sql), s.params))
  }

  ghost predicate Same(a: PanelState, b: PanelState) {
    a.newest == b.newest && a.rows == b.rows && a.outcome == b.outcome
  }

  // The state before event k.
  ghost function Before(c: Config, s: State, es: seq<Event>, k: nat): State
    requires Possible(c, s, es) && k <= |es|
    decreases k
  {
    if k == 0 then s else Before(c, Apply(c, s, es[0]), es[1..], k - 1)
  }

  // A panel that has become Ok by one event, or by the same run before it.
  lemma OneEvent(c: Config, s: State, e: Event, p: nat)
    requires Inv(c, s) && Shaped(c, s) && Enabled(c, s, e) && p < |c.panels| && (Fed(c, p) || Queries(c, p))
    ensures var t := Apply(c, s, e);
            && |s.panels| == |t.panels| == |c.panels|
            && (t.panels[p].outcome.Ok? ==> Same(s.panels[p], t.panels[p]) || CameFrom(c, s, e, p, t.panels[p]))
  {
    InvParts(c, s, {});
    InvNumbered(c, s);
    var t := Apply(c, s, e);
    if e.Resume? || e.Answer? || e.Fault? {
      assert RunOk(c, s, e.r, s.runs[e.r]);
      if Newest(s, s.runs[e.r]) {
        if e.Resume? {
          ResumeShows(c, s, e.r);
        } else {
          ReplyShows(c, s, e);
        }
        var rows, o := ComesBack(c, s, e, e.r);
        SettleFrame(s, e.r, rows, o);
      } else {
        OutdatedShowsNothing(c, s, e);
      }
    } else {
      var started := EventStarts(c, s, e);
      assert StartsPanel(c, s, t, started, p);
    }
  }

  // A succeeded panel with a source or a query shows what the event that brought its
  // newest run back made of that moment, in whatever run of the dashboard.
  lemma {:induction false} OkCameFrom(c: Config, s: State, es: seq<Event>, p: nat)
    requires Inv(c, s) && Possible(c, s, es) && p < |c.panels| && (Fed(c, p) || Queries(c, p))
    ensures var t := After(c, s, es);
            && |s.panels| == |t.panels| == |c.panels|
            && (t.panels[p].outcome.Ok? ==>
                  || Same(s.panels[p], t.panels[p])
                  || exists k :: 0 <= k < |es| && CameFrom(c, Before(c, s, es, k), es[k], p, t.panels[p]))
    decreases |es|
  {
    InvParts(c, s, {});
    hide Inv, Apply, Enabled, Shaped, CameFrom, Fed, Queries;
    if es != [] {
      var mid, t := Apply(c, s, es[0]), After(c, s, es);
      EventInv(c, s, es[0]);
      OneEvent(c, s, es[0], p);
      OkCameFrom(c, mid, es[1..], p);
      if t.panels[p].outcome.Ok? {
        if Same(mid.panels[p], t.panels[p]) {
          if !Same(s.panels[p], mid.panels[p]) {
            CameFromSame(c, s, es[0], p, mid.panels[p], t.panels[p]);
            assert Before(c, s, es, 0) == s;
          }
        } else {
          var k :| 0 <= k < |es| - 1 && CameFrom(c, Before(c, mid, es[1..], k), es[1..][k], p, t.panels[p]);
          assert Before(c, s, es, k + 1) == Before(c, mid, es[1..], k) && es[1..][k] == es[k + 1];
        }
      }
    }
  }

  lemma CameFromSame(c: Config, s: State, e: Event, p: nat, now: PanelState, later: PanelState)
    requires CameFrom(c, s, e, p, now) && Same(now, later)
    ensures CameFrom(c, s, e, p, later)
  {
  }

  // From the start of the dashboard: every succeeded panel with a source or a query shows
  // what one event of the run made of the state before it.
  lemma OkCameFromReturn(c: Config, params: Params, es: seq<Event>, p: nat)
    requires Possible(c, Initial(c, params), es) && p < |c.panels| && (Fed(c, p) || Queries(c, p))
    ensures var s := After(c, Initial(c, params), es);
            && |s.panels| == |c.panels|
            && (s.panels[p].outcome.Ok? ==>
                  exists k :: 0 <= k < |es| && CameFrom(c, Before(c, Initial(c, params), es, k), es[k], p, s.panels[p]))
  {
    InitialInv(c, params);
    OkCameFrom(c, Initial(c, params), es, p);
  }

  // A panel with neither shows nothing, and is never pending nor failed.
  lemma StaticEvent(c: Config, s: State, e: Event, p: nat)
    requires Inv(c, s) && Shaped(c, s) && Enabled(c, s, e) && p < |c.panels|
    requires c.panels[p].source == "" && c.panels[p].query == "" && Plain(s, p)
    ensures Plain(Apply(c, s, e), p)
  {
    InvNumbered(c, s);
    if e.Resume? || e.Answer? || e.Fault? {
      var rows, o := ComesBack(c, s, e, e.r);
      assert RunOk(c, s, e.r, s.runs[e.r]);
      SettleFrame(s, e.r, rows, o);
    } else {
      var started := EventStarts(c, s, e);
      assert StartsPanel(c, s, Apply(c, s, e), started, p);
    }
  }

  ghost predicate Plain(s: State, p: nat) {
    p < |s.panels| && s.panels[p].rows == [] && (s.panels[p].outcome.Idle? || s.panels[p].outcome.Ok?)
  }

  lemma {:induction false} StaticStaysPlain(c: Config, s: State, es: seq<Event>, p: nat)
    requires Inv(c, s) && Possible(c, s, es) && p < |c.panels|
    requires c.panels[p].source == "" && c.panels[p].query == "" && Plain(s, p)
    ensures Plain(After(c, s, es), p)
    decreases |es|
  {
    hide Inv, Apply, Enabled, Shaped, Plain;
    if es != [] {
      EventInv(c, s, es[0]);
      StaticEvent(c, s, es[0], p);
      StaticStaysPlain(c, Apply(c, s, es[0]), es[1..], p);
    }
  }
}
