// Exactly when a finished panel may disagree with its source: when the source's newest
// run came back after the panel's own newest run had.
module DashOvertaken {
  import opened Basics
  import opened Dash
  import opened DashInvariant
  import opened DashStarts
  import opened DashLaws

  // --- What one event does to a panel's newest run ---

  // What any event leaves of panel q: its newest run stays, or is one that did not exist;
  // and unless that run comes back, what it brought stays.
  ghost predicate Moves(c: Config, s: State, e: Event, t: State, q: nat) {
    && |s.panels| == |t.panels| == |c.panels| && q < |c.panels|
    && s.nextRun <= t.nextRun && BootIndex(c, s) <= BootIndex(c, t)
    && (t.panels[q].newest == s.panels[q].newest || t.panels[q].newest >= s.nextRun)
    && (t.panels[q].newest != s.panels[q].newest ==> t.panels[q].rows == s.panels[q].rows && (Fed(c, q) ==> t.panels[q].outcome.Pending?))
    && (t.panels[q].newest == s.panels[q].newest && !Settles(e, s.panels[q].newest) ==>
          t.panels[q].rows == s.panels[q].rows && t.panels[q].outcome == s.panels[q].outcome)
  }

  lemma EventMoves(c: Config, s: State, e: Event, q: nat)
    requires Inv(c, s) && Shaped(c, s) && Enabled(c, s, e) && q < |c.panels|
    ensures Moves(c, s, e, Apply(c, s, e), q)
    ensures Fed(c, q) && Src(c, q) < BootIndex(c, s)
            && Apply(c, s, e).panels[Src(c, q)].newest != s.panels[Src(c, q)].newest ==>
              Apply(c, s, e).panels[q].newest != s.panels[q].newest
    ensures BootIndex(c, s) <= q < BootIndex(c, Apply(c, s, e)) ==>
              Apply(c, s, e).panels[q].newest != s.panels[q].newest
  {
    InvNumbered(c, s);
    if e.Resume? || e.Answer? || e.Fault? {
      var rows, o := ComesBack(c, s, e, e.r);
      assert RunOk(c, s, e.r, s.runs[e.r]);
      hide Apply, Enabled, Shaped, Inv, Fed, Reports, Settle;
      SettleFrame(s, e.r, rows, o);
    } else {
      var started := EventStarts(c, s, e);
      hide Apply, Enabled, Shaped, Inv, Settles;
      assert StartsPanel(c, s, Apply(c, s, e), started, q);
      if Fed(c, q) {
        assert StartsPanel(c, s, Apply(c, s, e), started, Src(c, q));
      }
    }
  }

  // --- Who came back last ---

  ghost predicate Agrees(c: Config, s: State, p: nat)
    requires |s.panels| == |c.panels| && p < |c.panels| && Fed(c, p) && s.panels[p].outcome.Ok?
  {
    Transformed(c, p, s.panels[Src(c, p)].rows, s.panels[p].outcome.params) == Some(s.panels[p].rows)
  }

  // Somewhere on the way, run theirs comes back while p has already finished its run mine.
  ghost predicate Overtakes(c: Config, s: State, es: seq<Event>, p: nat, mine: nat, theirs: nat)
    requires Possible(c, s, es) && p < |c.panels|
    decreases |es|
  {
    && es != []
    && (|| OvertakesNow(s, es[0], p, mine, theirs)
        || Overtakes(c, Apply(c, s, es[0]), es[1..], p, mine, theirs))
  }

  ghost predicate OvertakesNow(s: State, e: Event, p: nat, mine: nat, theirs: nat) {
    p < |s.panels| && Settles(e, theirs) && s.panels[p].newest == mine && Finished(s.panels[p].outcome)
  }

  // The source's newest run came back after p's newest run had.
  ghost predicate Overtaken(c: Config, s: State, es: seq<Event>, p: nat)
    requires Possible(c, s, es) && p < |c.panels|
  {
    var t := After(c, s, es);
    && p < |t.panels| && Src(c, p) < |t.panels|
    && Overtakes(c, s, es, p, t.panels[p].newest, t.panels[Src(c, p)].newest)
  }

  // Along a run: a number that panel q has passed never becomes its newest again; without
  // a new run of q, the boot does not pass it, nor starts a source of it once more.
  lemma {:induction false} RunMoves(c: Config, s: State, es: seq<Event>, q: nat)
    requires Journey(c, s, es) && q < |c.panels|
    ensures var t := After(c, s, es);
            && s.nextRun <= t.nextRun && BootIndex(c, s) <= BootIndex(c, t) && s.panels[q].newest < s.nextRun
            && (t.panels[q].newest == s.panels[q].newest || t.panels[q].newest >= s.nextRun)
            && (t.panels[q].newest == s.panels[q].newest && BootIndex(c, s) <= q ==> BootIndex(c, t) <= q)
            && (t.panels[q].newest == s.panels[q].newest && Fed(c, q) && Src(c, q) < BootIndex(c, s) ==>
                  t.panels[Src(c, q)].newest == s.panels[Src(c, q)].newest)
    decreases |es|
  {
    InvNumbered(c, s);
    hide Inv, Apply, Enabled, Shaped, BootIndex, Fed;
    if es != [] {
      JourneyOn(c, s, es);
      EventMoves(c, s, es[0], q);
      RunMoves(c, Apply(c, s, es[0]), es[1..], q);
    }
  }

  // A finished panel keeps what it has as long as no new run of it starts.
  lemma {:induction false} FinishedStays(c: Config, s: State, es: seq<Event>, q: nat)
    requires Journey(c, s, es) && q < |s.panels| && Finished(s.panels[q].outcome)
    ensures After(c, s, es).panels[q].newest == s.panels[q].newest ==>
              && After(c, s, es).panels[q].rows == s.panels[q].rows
              && After(c, s, es).panels[q].outcome == s.panels[q].outcome
    decreases |es|
  {
    InvNumbered(c, s);
    if es != [] {
      var e := es[0];
      JourneyOn(c, s, es);
      EventMoves(c, s, e, q);
      assert !Settles(e, s.panels[q].newest);
      hide Inv, Apply, Enabled, Shaped;
      var t := Apply(c, s, e);
      RunMoves(c, t, es[1..], q);
      if t.panels[q].newest == s.panels[q].newest {
        FinishedStays(c, t, es[1..], q);
      }
    }
  }

  // What p read when its newest run came back is its transform of the source's rows.
  lemma ReadsSource(c: Config, s: State, e: Event, p: nat)
    requires Inv(c, s) && Shaped(c, s) && Enabled(c, s, e) && p < |c.panels| && Fed(c, p)
    requires Settles(e, s.panels[p].newest) && Apply(c, s, e).panels[p].outcome.Ok?
    ensures |Apply(c, s, e).panels| == |c.panels| && Agrees(c, Apply(c, s, e), p)
  {
    var r := s.panels[p].newest;
    assert PendingOk(c, s, p) && RunOk(c, s, r, s.runs[r]);
    hide Transformed, Starteds, Edges, Deferreds, Booted;
  }

  // One event keeps a finished, agreeing panel agreeing, unless it brings back the
  // newest run of its source; and a panel that finishes now agrees.
  lemma AgreesOn(c: Config, s: State, e: Event, p: nat)
    requires Inv(c, s) && Shaped(c, s) && Enabled(c, s, e) && p < |c.panels| && Fed(c, p)
    requires |s.panels| == |c.panels| && Inv(c, Apply(c, s, e))
    requires s.panels[p].outcome.Ok? ==> Agrees(c, s, p)
    requires !OvertakesNow(s, e, p, s.panels[p].newest, s.panels[Src(c, p)].newest)
    ensures var t := Apply(c, s, e); |t.panels| == |c.panels| && (t.panels[p].outcome.Ok? ==> Agrees(c, t, p))
  {
    var src := Src(c, p);
    InvNumbered(c, s);
    EventMoves(c, s, e, p);
    EventMoves(c, s, e, src);
    var t := Apply(c, s, e);
    if Settles(e, s.panels[p].newest) {
      if t.panels[p].outcome.Ok? {
        if t.panels[p].newest == s.panels[p].newest {
          ReadsSource(c, s, e, p);
        }
      }
    } else {
      hide Inv, Apply, Enabled, Shaped, Transformed;
    }
  }

  // If the source's newest run now comes back after p's own, then the boot is between
  // the two, and no later run of the source starts without one of p.
  lemma OvertakenByNewest(c: Config, s: State, es: seq<Event>, p: nat)
    requires Journey(c, s, es) && es != [] && p < |c.panels| && Fed(c, p)
    requires OvertakesNow(s, es[0], p, After(c, s, es).panels[p].newest, s.panels[Src(c, p)].newest)
    ensures After(c, s, es).panels[Src(c, p)].newest == s.panels[Src(c, p)].newest
    ensures BootBetween(c, s, p) && BootBetween(c, After(c, s, es), p)
  {
    var rows, o := ComesBack(c, s, es[0], s.panels[Src(c, p)].newest);
    assert EdgeOk(c, s, {}, p) && PendingOk(c, s, Src(c, p));
    RunMoves(c, s, es, p);
    hide Inv, Apply, Enabled, Shaped, Possible, After, Reports;
  }

  // A panel that is not overtaken agrees with its source.
  lemma {:induction false} NotOvertakenAgrees(c: Config, s: State, es: seq<Event>, p: nat)
    requires Journey(c, s, es) && p < |c.panels| && Fed(c, p) && !Overtaken(c, s, es, p)
    requires s.panels[p].outcome.Ok? && s.panels[p].newest == After(c, s, es).panels[p].newest ==> Agrees(c, s, p)
    ensures var t := After(c, s, es); t.panels[p].outcome.Ok? ==> Agrees(c, t, p)
    decreases |es|
  {
    if es != [] {
      var e, t := es[0], After(c, s, es);
      JourneyOn(c, s, es);
      EventMoves(c, s, e, p);
      if t.panels[p].newest == s.panels[p].newest {
        if OvertakesNow(s, e, p, s.panels[p].newest, s.panels[Src(c, p)].newest) {
          OvertakenByNewest(c, s, es, p);
          assert false;
        }
        AgreesOn(c, s, e, p);
      }
      hide Inv, Apply, Enabled, Shaped, Agrees;
      NotOvertakenAgrees(c, Apply(c, s, e), es[1..], p);
    }
  }

  // Only while the boot is between the two can a panel be overtaken by its source.
  lemma {:induction false} OvertakenBetween(c: Config, s: State, es: seq<Event>, p: nat)
    requires Journey(c, s, es) && p < |c.panels| && Fed(c, p) && Overtaken(c, s, es, p)
    ensures BootBetween(c, After(c, s, es), p)
    decreases |es|
  {
    var t, src := After(c, s, es), Src(c, p);
    JourneyOn(c, s, es);
    if OvertakesNow(s, es[0], p, t.panels[p].newest, t.panels[src].newest) {
      InvNumbered(c, s);
      RunMoves(c, s, es, src);
      var rows, o := ComesBack(c, s, es[0], t.panels[src].newest);
      hide Inv, Apply, Enabled, Shaped, Reports;
      OvertakenByNewest(c, s, es, p);
    } else {
      hide Inv, Apply, Enabled, Shaped;
      OvertakenBetween(c, Apply(c, s, es[0]), es[1..], p);
    }
  }
}
