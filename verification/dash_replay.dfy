// The same run with other answers: what the server says changes rows, never the order of
// events. Agreement holds whatever the server says exactly for panels not overtaken.
module DashReplay {
  import opened Basics
  import opened Interpolate
  import opened ParamLaws
  import opened Dash
  import opened DashInvariant
  import opened DashLaws
  import opened DashOvertaken
  import opened DashStarts

  // --- States that differ only in what finished runs brought ---

  ghost predicate AlikePanel(a: PanelState, b: PanelState) {
    && b == a.(rows := b.rows, outcome := b.outcome)
    && (a.outcome == b.outcome || (Finished(a.outcome) && Finished(b.outcome)))
  }

  ghost predicate Alike(s: State, t: State) {
    && |s.panels| == |t.panels| && t == s.(panels := t.panels)
    && forall q :: 0 <= q < |s.panels| ==> AlikePanel(s.panels[q], t.panels[q])
  }

  lemma FinishAlike(s: State, t: State, p: nat, a: PanelState, b: PanelState, o: Outcome, x: Outcome)
    requires Alike(s, t) && p < |s.panels| && Finished(o) && Finished(x)
    requires a.(rows := [], outcome := Idle) == b.(rows := [], outcome := Idle)
    ensures Alike(Finish(s, p, a, o), Finish(t, p, b, x))
  {
    assert AlikePanel(s.panels[p], t.panels[p]);
  }

  lemma LaunchAlike(c: Config, s: State, t: State, p: nat)
    requires Alike(s, t) && |s.panels| == |c.panels| && p < |c.panels|
    ensures Launched(c, s, p) == Launched(c, t, p)
  {
    hide Sql;
    assert AlikePanel(s.panels[p], t.panels[p]);
    assert Fed(c, p) ==> AlikePanel(s.panels[Src(c, p)], t.panels[Src(c, p)]);
  }

  lemma StartRunAlike(c: Config, s: State, t: State, p: nat)
    requires Alike(s, t) && |s.panels| == |c.panels| && p < |c.panels|
    ensures Alike(StartRun(c, s, p), StartRun(c, t, p))
  {
    LaunchAlike(c, s, t, p);
    hide Launched, Finish;
    assert AlikePanel(s.panels[p], t.panels[p]);
    match Launched(c, s, p)
    case Suspend(_, _) =>
    case Done(o, asked) =>
      var a := s.panels[p].(epoch := s.panels[p].epoch + 1, newest := s.nextRun, sql := asked);
      var b := t.panels[p].(epoch := t.panels[p].epoch + 1, newest := t.nextRun, sql := asked);
      FinishAlike(s.(nextRun := s.nextRun + 1), t.(nextRun := t.nextRun + 1), p, a, b, o, o);
  }

  lemma {:induction false} StartAllAlike(c: Config, s: State, t: State, order: seq<nat>)
    requires Alike(s, t) && |s.panels| == |c.panels| && forall i :: 0 <= i < |order| ==> order[i] < |c.panels|
    ensures Alike(StartAll(c, s, order), StartAll(c, t, order))
    decreases |order|
  {
    hide StartRun, Alike;
    assert |s.panels| == |t.panels| by {
      SameWidth(s, t);
    }
    if order != [] {
      var init := order[..|order| - 1];
      assert forall i :: 0 <= i < |init| ==> init[i] == order[i];
      StartAllAlike(c, s, t, init);
      StartRunAlike(c, StartAll(c, s, init), StartAll(c, t, init), order[|order| - 1]);
    }
  }

  lemma SameWidth(s: State, t: State)
    requires Alike(s, t)
    ensures |s.panels| == |t.panels|
  {
  }

  lemma {:induction false} InstallAllAlike(s: State, t: State, order: seq<nat>)
    requires Alike(s, t) && forall i :: 0 <= i < |order| ==> order[i] < |s.panels|
    ensures Alike(InstallAll(s, order), InstallAll(t, order))
    decreases |order|
  {
    hide Install, Alike;
    SameWidth(s, t);
    if order != [] {
      var init := order[..|order| - 1];
      assert forall i :: 0 <= i < |init| ==> init[i] == order[i];
      InstallAllAlike(s, t, init);
      InstallAlike(InstallAll(s, init), InstallAll(t, init), order[|order| - 1]);
    }
  }

  lemma InstallAlike(s: State, t: State, p: nat)
    requires Alike(s, t) && p < |s.panels|
    ensures p < |t.panels| && Alike(Install(s, p), Install(t, p))
  {
    assert AlikePanel(s.panels[p], t.panels[p]);
  }

  lemma ChangeAlike(c: Config, s: State, t: State, name: string, params: Params)
    requires Alike(s, t) && |s.panels| == |c.panels|
    ensures |t.panels| == |c.panels| && Alike(Change(c, s, name, params), Change(c, t, name, params))
  {
    var order, s1, t1 := RerunOrder(c, name), s.(params := params), t.(params := params);
    assert Alike(s1, t1);
    InstallAllAlike(s1, t1, order);
    StartAllAlike(c, InstallAll(s1, order), InstallAll(t1, order), order);
  }

  lemma SettleAlike(s: State, t: State, r: nat, rows: Rows, o: Outcome, others: Rows, x: Outcome)
    requires Alike(s, t) && r in s.runs && s.runs[r].panel < |s.panels| && Finished(o) && Finished(x)
    ensures r in t.runs && t.runs[r].panel < |t.panels| && Alike(Settle(s, r, rows, o), Settle(t, r, others, x))
  {
    var p := s.runs[r].panel;
    assert AlikePanel(s.panels[p], t.panels[p]);
    hide Finish;
    var u, v := s.(runs := s.runs - {r}), t.(runs := t.runs - {r});
    assert Alike(u, v);
    FinishAlike(u, v, p, s.panels[p].(rows := rows), t.panels[p].(rows := others), o, x);
  }

  // --- Runs that differ only in one run's answer ---

  predicate Replies(e: Event, r: nat) {
    (e.Answer? || e.Fault?) && e.r == r
  }

  predicate SameOrReplies(e: Event, f: Event, r: nat) {
    f == e || (Replies(e, r) && Replies(f, r))
  }

  ghost predicate SameBut(es: seq<Event>, fs: seq<Event>, r: nat) {
    |fs| == |es| && forall k :: 0 <= k < |es| ==> SameOrReplies(es[k], fs[k], r)
  }

  lemma EventAlike(c: Config, s: State, t: State, e: Event, f: Event, r: nat)
    requires Alike(s, t) && Shaped(c, s) && Enabled(c, s, e) && SameOrReplies(e, f, r)
    ensures Shaped(c, t) && Enabled(c, t, f) && Alike(Apply(c, s, e), Apply(c, t, f))
  {
    if e.Resume? || e.Answer? || e.Fault? {
      var rows, o := ComesBack(c, s, e, e.r);
      var others, x := ComesBack(c, t, f, e.r);
      hide Apply, Settle;
      SettleAlike(s, t, e.r, rows, o, others, x);
    } else {
      StartAlike(c, s, t, e);
    }
  }

  lemma StartAlike(c: Config, s: State, t: State, e: Event)
    requires Alike(s, t) && Shaped(c, s) && Enabled(c, s, e) && !e.Resume? && !e.Answer? && !e.Fault?
    ensures Shaped(c, t) && Enabled(c, t, e) && Alike(Apply(c, s, e), Apply(c, t, e))
  {
    hide StartAll, StartRun, Change, TrySet;
    match e
    case BootStart =>
      if c.concurrent {
        StartAllAlike(c, s.(boot := AllStarted), t.(boot := AllStarted), AllPanels(|c.panels|));
      } else {
        BootAtAlike(c, s, t, 0);
      }
    case BootNext => BootAtAlike(c, s, t, s.boot.next);
    case SetParam(name, value) =>
      var next := TrySet(c.js, c.defs, s.params, name, value);
      if next.Some? {
        ChangeAlike(c, s, t, name, next.value);
      }
    case Commit(name, value) => ChangeAlike(c, s, t, name, s.params[name := value]);
  }

  lemma BootAtAlike(c: Config, s: State, t: State, next: nat)
    requires Alike(s, t) && |s.panels| == |c.panels| && next <= |c.panels|
    ensures |t.panels| == |c.panels| && Alike(BootAt(c, s, next), BootAt(c, t, next))
  {
    if next < |c.panels| {
      StartRunAlike(c, s.(boot := Waiting(next + 1, s.nextRun)), t.(boot := Waiting(next + 1, t.nextRun)), next);
    }
  }

  // Another answer changes neither which events can happen nor who overtakes whom.
  lemma {:induction false} ReplayAlike(c: Config, s: State, t: State, es: seq<Event>, fs: seq<Event>, r: nat)
    requires Alike(s, t) && Possible(c, s, es) && SameBut(es, fs, r)
    ensures Possible(c, t, fs) && Alike(After(c, s, es), After(c, t, fs))
    ensures forall p: nat, mine: nat, theirs: nat :: p < |c.panels| ==>
              (Overtakes(c, s, es, p, mine, theirs) <==> Overtakes(c, t, fs, p, mine, theirs))
    decreases |es|
  {
    hide Alike, Apply, Enabled, Shaped;
    if es != [] {
      assert SameOrReplies(es[0], fs[0], r);
      assert SameBut(es[1..], fs[1..], r);
      EventAlike(c, s, t, es[0], fs[0], r);
      ReplayAlike(c, Apply(c, s, es[0]), Apply(c, t, fs[0]), es[1..], fs[1..], r);
      forall p: nat, mine: nat, theirs: nat
        ensures OvertakesNow(s, es[0], p, mine, theirs) <==> OvertakesNow(t, fs[0], p, mine, theirs)
      {
        OvertakesAlike(s, t, es[0], fs[0], r, p, mine, theirs);
      }
    }
  }

  lemma OvertakesAlike(s: State, t: State, e: Event, f: Event, r: nat, p: nat, mine: nat, theirs: nat)
    requires Alike(s, t) && SameOrReplies(e, f, r)
    ensures OvertakesNow(s, e, p, mine, theirs) <==> OvertakesNow(t, f, p, mine, theirs)
  {
    assert p < |s.panels| ==> AlikePanel(s.panels[p], t.panels[p]);
  }

  // --- Agreement whatever is answered ---

  // Once run r is gone it never comes back, so it overtakes no one any more.
  lemma {:induction false} GoneForGood(c: Config, s: State, es: seq<Event>, p: nat, mine: nat, r: nat)
    requires Journey(c, s, es) && p < |c.panels| && r < s.nextRun && r !in s.runs
    ensures !Overtakes(c, s, es, p, mine, r)
    decreases |es|
  {
    hide Inv, Enabled, Shaped;
    if es != [] {
      JourneyOn(c, s, es);
      StaysGone(c, s, es[0], r);
      hide Apply;
      GoneForGood(c, Apply(c, s, es[0]), es[1..], p, mine, r);
    }
  }

  lemma StaysGone(c: Config, s: State, e: Event, r: nat)
    requires Inv(c, s) && Shaped(c, s) && Enabled(c, s, e) && r < s.nextRun && (r in s.runs ==> Settles(e, r))
    ensures r !in Apply(c, s, e).runs && r < Apply(c, s, e).nextRun && (Settles(e, r) ==> r in s.runs)
  {
    InvNumbered(c, s);
    if e.Resume? || e.Answer? || e.Fault? {
      var rows, o := ComesBack(c, s, e, e.r);
      hide Apply, Enabled, Shaped, Inv, Reports;
    } else {
      var started := EventStarts(c, s, e);
      hide Apply, Enabled, Shaped, Inv, StartsPanel;
    }
  }

  // Every answer to run r replaced by this one.
  function Instead(es: seq<Event>, r: nat, reply: Event): (fs: seq<Event>)
    ensures |fs| == |es|
  {
    seq(|es|, k requires 0 <= k < |es| => if Replies(es[k], r) then reply else es[k])
  }

  // The same run twice, but for what run r is answered.
  ghost predicate Twice(c: Config, s: State, es: seq<Event>, fs: seq<Event>, r: nat) {
    Journey(c, s, es) && Journey(c, s, fs) && SameBut(es, fs, r)
  }

  lemma OtherJourney(c: Config, s: State, es: seq<Event>, fs: seq<Event>, r: nat)
    requires Journey(c, s, es) && SameBut(es, fs, r)
    ensures Twice(c, s, es, fs, r) && Alike(After(c, s, es), After(c, s, fs))
  {
    assert Alike(s, s);
    hide Inv, Alike, SameBut, Possible, After;
    ReplayAlike(c, s, s, es, fs, r);
    IsJourney(c, s, fs);
  }

  // An overtaken panel is the same whatever its source's newest run is answered.
  lemma {:induction false} OvertakenStays(c: Config, s: State, es: seq<Event>, fs: seq<Event>, p: nat, mine: nat, r: nat)
    requires Twice(c, s, es, fs, r) && p < |c.panels| && Overtakes(c, s, es, p, mine, r)
    requires After(c, s, es).panels[p].newest == mine
    ensures After(c, s, fs).panels[p].rows == After(c, s, es).panels[p].rows
    ensures After(c, s, fs).panels[p].outcome == After(c, s, es).panels[p].outcome
    decreases |es|
  {
    var e, f := es[0], fs[0];
    assert SameOrReplies(e, f, r) && SameBut(es[1..], fs[1..], r);
    JourneyOn(c, s, es);
    JourneyOn(c, s, fs);
    if Settles(e, r) {
      RunBelow(c, s, e, r);
      StaysGone(c, s, e, r);
      GoneForGood(c, Apply(c, s, e), es[1..], p, mine, r);
      OtherJourney(c, s, es, fs, r);
      AlikeNewest(After(c, s, es), After(c, s, fs), p);
      hide Inv, Apply, Enabled, Shaped, Alike;
      FinishedStays(c, s, es, p);
      FinishedStays(c, s, fs, p);
    } else {
      hide Inv, Apply, Enabled, Shaped;
      OvertakenStays(c, Apply(c, s, e), es[1..], fs[1..], p, mine, r);
    }
  }

  lemma RunBelow(c: Config, s: State, e: Event, r: nat)
    requires Inv(c, s) && Shaped(c, s) && Enabled(c, s, e) && Settles(e, r)
    ensures r < s.nextRun
  {
    InvNumbered(c, s);
  }

  lemma AlikeNewest(s: State, t: State, p: nat)
    requires Alike(s, t) && p < |s.panels|
    ensures p < |t.panels| && t.panels[p].newest == s.panels[p].newest
  {
    assert AlikePanel(s.panels[p], t.panels[p]);
  }

  // And its query source shows whatever that run was answered.
  lemma {:induction false} ReplyShows(c: Config, s: State, es: seq<Event>, p: nat, rows: Rows)
    requires Journey(c, s, es) && p < |c.panels| && Fed(c, p) && Queries(c, Src(c, p)) && Overtaken(c, s, es, p)
    ensures var r := After(c, s, es).panels[Src(c, p)].newest;
            var fs := Instead(es, r, Answer(r, rows, true));
            Twice(c, s, es, fs, r) && After(c, s, fs).panels[Src(c, p)].rows == rows
    decreases |es|
  {
    var src, r := Src(c, p), After(c, s, es).panels[Src(c, p)].newest;
    var reply := Answer(r, rows, true);
    var fs := Instead(es, r, reply);
    OtherJourney(c, s, es, fs, r);
    JourneyOn(c, s, es);
    JourneyOn(c, s, fs);
    assert Instead(es, r, reply)[1..] == Instead(es[1..], r, reply);
    if Settles(es[0], r) {
      InvNumbered(c, s);
      RunMoves(c, s, es, src);
      RunBelow(c, s, es[0], r);
      ReplyLands(c, s, es[0], src, rows);
      AlikeNewest(After(c, s, es), After(c, s, fs), src);
      assert fs[0] == reply;
      hide Inv, Apply, Enabled, Shaped;
      FinishedStays(c, Apply(c, s, reply), fs[1..], src);
    } else {
      hide Inv, Apply, Enabled, Shaped;
      assert fs[0] == es[0];
      ReplyShows(c, Apply(c, s, es[0]), es[1..], p, rows);
    }
  }

  // An answer to a query panel's newest run becomes its rows.
  lemma ReplyLands(c: Config, s: State, e: Event, q: nat, rows: Rows)
    requires Inv(c, s) && Shaped(c, s) && Enabled(c, s, e) && q < |s.panels| == |c.panels| && Queries(c, q)
    requires Settles(e, s.panels[q].newest)
    ensures var reply := Answer(s.panels[q].newest, rows, true);
            && Replies(e, s.panels[q].newest) && Enabled(c, s, reply)
            && var u := Apply(c, s, reply);
               |u.panels| == |c.panels| && u.panels[q].rows == rows && u.panels[q].newest == s.panels[q].newest
               && Finished(u.panels[q].outcome)
  {
    var r := s.panels[q].newest;
    assert RunOk(c, s, r, s.runs[r]) && PendingOk(c, s, q);
    hide Starteds, Edges, Deferreds, Booted, Transformed, OwnDeferred;
  }

  // Agreement of p after es, and after every other run in which only the answers to its
  // source's newest run differ.
  ghost predicate AgreesWhateverAnswered(c: Config, s: State, es: seq<Event>, p: nat, r: nat)
    requires p < |c.panels| && Fed(c, p)
  {
    forall fs :: SameBut(es, fs, r) ==>
      && Possible(c, s, fs) && |After(c, s, fs).panels| == |c.panels|
      && (After(c, s, fs).panels[p].outcome.Ok? ==> Agrees(c, After(c, s, fs), p))
  }

  // What p shows is what its transform makes of any rows at all.
  ghost predicate ShowsAlways(c: Config, t: State, p: nat)
    requires p < |t.panels| && p < |c.panels| && t.panels[p].outcome.Ok?
  {
    forall rows :: Transformed(c, p, rows, t.panels[p].outcome.params) == Some(t.panels[p].rows)
  }

  // Over all runs: a succeeded panel fed by a query panel agrees with it whatever the
  // server answers if and only if the source's newest run did not come back after the
  // panel's own, or the panel's transform does not look at the rows.
  lemma AgreementIff(c: Config, params: Params, es: seq<Event>, p: nat)
    requires Possible(c, Initial(c, params), es) && p < |c.panels| && Fed(c, p) && Queries(c, Src(c, p))
    requires var t := After(c, Initial(c, params), es); p < |t.panels| && t.panels[p].outcome.Ok?
    ensures var s, t := Initial(c, params), After(c, Initial(c, params), es);
            && |t.panels| == |c.panels|
            && (AgreesWhateverAnswered(c, s, es, p, t.panels[Src(c, p)].newest) <==>
                  !Overtaken(c, s, es, p) || ShowsAlways(c, t, p))
  {
    var s := Initial(c, params);
    InitialInv(c, params);
    IsJourney(c, s, es);
    var t := After(c, s, es);
    hide Inv, Possible, After, Overtaken, Agrees, SameBut;
    if !Overtaken(c, s, es, p) || ShowsAlways(c, t, p) {
      forall fs | SameBut(es, fs, t.panels[Src(c, p)].newest)
        ensures Possible(c, s, fs) && |After(c, s, fs).panels| == |c.panels|
        ensures After(c, s, fs).panels[p].outcome.Ok? ==> Agrees(c, After(c, s, fs), p)
      {
        OtherAnswerAgrees(c, s, es, fs, p);
      }
    } else {
      AnswerDisagrees(c, s, es, p);
    }
  }

  lemma OtherAnswerAgrees(c: Config, s: State, es: seq<Event>, fs: seq<Event>, p: nat)
    requires Journey(c, s, es) && p < |c.panels| && Fed(c, p) && s.panels[p].outcome.Idle?
    requires After(c, s, es).panels[p].outcome.Ok? && SameBut(es, fs, After(c, s, es).panels[Src(c, p)].newest)
    requires !Overtaken(c, s, es, p) || ShowsAlways(c, After(c, s, es), p)
    ensures Journey(c, s, fs) && (After(c, s, fs).panels[p].outcome.Ok? ==> Agrees(c, After(c, s, fs), p))
  {
    var t, r := After(c, s, es), After(c, s, es).panels[Src(c, p)].newest;
    OtherJourney(c, s, es, fs, r);
    assert Alike(s, s);
    ReplayAlike(c, s, s, es, fs, r);
    AlikeNewest(t, After(c, s, fs), p);
    AlikeNewest(t, After(c, s, fs), Src(c, p));
    hide Inv, Alike, SameBut;
    if Overtaken(c, s, es, p) {
      OvertakenStays(c, s, es, fs, p, t.panels[p].newest, r);
    } else {
      NotOvertakenAgrees(c, s, fs, p);
    }
  }

  lemma AnswerDisagrees(c: Config, s: State, es: seq<Event>, p: nat)
    requires Journey(c, s, es) && p < |c.panels| && Fed(c, p) && Queries(c, Src(c, p))
    requires After(c, s, es).panels[p].outcome.Ok? && Overtaken(c, s, es, p) && !ShowsAlways(c, After(c, s, es), p)
    ensures !AgreesWhateverAnswered(c, s, es, p, After(c, s, es).panels[Src(c, p)].newest)
  {
    var t, r := After(c, s, es), After(c, s, es).panels[Src(c, p)].newest;
    var rows :| Transformed(c, p, rows, t.panels[p].outcome.params) != Some(t.panels[p].rows);
    var fs := Instead(es, r, Answer(r, rows, true));
    hide Inv, SameBut, Transformed;
    ReplyShows(c, s, es, p, rows);
    OvertakenStays(c, s, es, fs, p, t.panels[p].newest, r);
    assert !Agrees(c, After(c, s, fs), p);
  }
}
