// What a run and a cleanup achieve when nothing else happens in between.
module OwnershipProgress {
  import opened Ownership

  // n statements of one process in a row lead from w to v.
  ghost predicate Solo(w: World, pid: nat, n: nat, v: World)
    decreases n
  {
    if n == 0 then v == w else Enabled(w, Step(pid)) && Solo(Apply(w, Step(pid)), pid, n - 1, v)
  }

  lemma {:induction false} SoloAppend(w: World, pid: nat, n: nat, v: World, m: nat, u: World)
    requires Solo(w, pid, n, v) && Solo(v, pid, m, u)
    ensures Solo(w, pid, n + m, u)
    decreases n
  {
    hide Apply, Enabled;
    if n > 0 {
      SoloAppend(Apply(w, Step(pid)), pid, n - 1, v, m, u);
    }
  }

  lemma SoloStep(w: World, pid: nat, n: nat, v: World)
    requires Enabled(w, Step(pid)) && Solo(StepProc(w, pid), pid, n, v)
    ensures Solo(w, pid, n + 1, v)
  {
  }

  ghost predicate Foreigns(w: World, o: Object) {
    o in w.objects && w.objects[o] == Foreign
  }

  // --- A run ---

  // A name that is free, with its database in place, is registered and created.
  lemma MakesAbsent(w: World, pid: nat, todo: seq<Object>) returns (v: World)
    requires pid in w.procs && w.procs[pid] == AskExists(todo) && todo != [] && todo[0] !in w.objects
    requires todo[0].TableOf? ==> Database(todo[0].db) in w.objects
    ensures Solo(w, pid, 3, v) && v.procs == w.procs[pid := Next(todo)]
    ensures v.objects == w.objects[todo[0] := Ours] && v.registry == w.registry + {Reg(todo[0])}
  {
    var o := todo[0];
    var w1 := Goto(w, pid, Register(todo, false));
    var w2 := Goto(w1.(registry := w1.registry + {Reg(o)}), pid, Create(todo));
    v := Goto(w2.(objects := w2.objects[o := Ours]), pid, Next(todo));
    hide Next, Reg, Solo;
    assert Solo(v, pid, 0, v) by {
      SoloNone(v, pid);
    }
    SoloStep(w2, pid, 0, v);
    SoloStep(w1, pid, 1, v);
    SoloStep(w, pid, 2, v);
    assert v.procs == w.procs[pid := Next(todo)];
  }

  lemma SoloNone(w: World, pid: nat)
    ensures Solo(w, pid, 0, w)
  {
  }

  // A table of ours is dropped and created anew; a database of ours stays.
  lemma MakesOurs(w: World, pid: nat, todo: seq<Object>) returns (n: nat, v: World)
    requires pid in w.procs && w.procs[pid] == AskExists(todo) && todo != [] && todo[0] in w.objects
    requires Reg(todo[0]) in w.registry && w.objects[todo[0]] == Ours
    requires todo[0].TableOf? ==> Database(todo[0].db) in w.objects
    ensures n <= 5 && Solo(w, pid, n, v) && v.procs == w.procs[pid := Next(todo)]
    ensures v.objects == w.objects && v.registry == w.registry
  {
    var o := todo[0];
    var w1 := Goto(w, pid, AskRegistered(todo));
    var w2 := Goto(w, pid, Register(todo, true));
    var w3 := Goto(w, pid, if o.TableOf? then Drop(todo) else Create(todo));
    v := Goto(w, pid, Next(todo));
    assert w2.registry + {Reg(o)} == w.registry;
    hide Next, Reg, Solo;
    assert StepProc(w1, pid) == w2;
    SoloNone(v, pid);
    if o.TableOf? {
      var w4 := Goto(w.(objects := w.objects - {o}), pid, Create(todo));
      assert (w.objects - {o})[o := Ours] == w.objects;
      SoloStep(w4, pid, 0, v);
      SoloStep(w3, pid, 1, v);
      n := 5;
    } else {
      SoloStep(w3, pid, 0, v);
      n := 4;
    }
    SoloStep(w2, pid, n - 3, v);
    SoloStep(w1, pid, n - 2, v);
    SoloStep(w, pid, n - 1, v);
  }

  // A foreign name stops the run, and nothing has changed.
  lemma StopsAtForeign(w: World, pid: nat, todo: seq<Object>)
    requires pid in w.procs && w.procs[pid] == AskExists(todo) && todo != [] && todo[0] in w.objects
    requires Reg(todo[0]) !in w.registry
    ensures Solo(w, pid, 2, Goto(w, pid, Stopped))
  {
    var w1, v := Goto(w, pid, AskRegistered(todo)), Goto(w, pid, Stopped);
    hide Reg, Solo;
    SoloNone(v, pid);
    SoloStep(w1, pid, 0, v);
    SoloStep(w, pid, 1, v);
  }

  // v holds what w holds, and the first k objects of todo as the tool's own.
  ghost predicate Added(w: World, v: World, todo: seq<Object>, k: nat) {
    && k <= |todo|
    && (forall o :: o in v.objects <==> o in w.objects || o in todo[..k])
    && (forall o :: o in v.objects ==> v.objects[o] == if o in todo[..k] then Ours else w.objects[o])
  }

  // Each table's database is there already, or comes before it.
  ghost predicate Placed(w: World, todo: seq<Object>) {
    forall i :: 0 <= i < |todo| && todo[i].TableOf? ==>
      Database(todo[i].db) in w.objects || exists j :: 0 <= j < i && todo[j] == Database(todo[i].db)
  }

  lemma {:induction false} SoloInv(w: World, pid: nat, n: nat, v: World)
    requires Inv(w) && Solo(w, pid, n, v)
    ensures Inv(v)
    decreases n
  {
    hide Inv, Apply, Enabled;
    if n > 0 {
      EventInv(w, Step(pid));
      SoloInv(Apply(w, Step(pid)), pid, n - 1, v);
    }
  }

  // One object that is not foreign becomes the tool's.
  lemma MakesOne(w: World, pid: nat, todo: seq<Object>) returns (n: nat, v: World)
    requires Inv(w) && pid in w.procs && w.procs[pid] == AskExists(todo) && todo != []
    requires !Foreigns(w, todo[0]) && Placed(w, todo)
    ensures n <= 5 && Solo(w, pid, n, v) && v.procs == w.procs[pid := Next(todo)]
    ensures v.objects == w.objects[todo[0] := Ours] && Inv(v)
  {
    if todo[0] in w.objects {
      n, v := MakesOurs(w, pid, todo);
    } else {
      n := 3;
      v := MakesAbsent(w, pid, todo);
    }
    SoloInv(w, pid, n, v);
  }

  lemma PlacedNext(w: World, v: World, todo: seq<Object>)
    requires todo != [] && Placed(w, todo) && v.objects == w.objects[todo[0] := Ours]
    ensures Placed(v, todo[1..])
  {
    var rest := todo[1..];
    forall i | 0 <= i < |rest| && rest[i].TableOf?
      ensures Database(rest[i].db) in v.objects || exists j :: 0 <= j < i && rest[j] == Database(rest[i].db)
    {
      assert rest[i] == todo[i + 1];
      if Database(rest[i].db) !in w.objects && todo[0] != Database(rest[i].db) {
        var j :| 0 <= j < i + 1 && todo[j] == Database(rest[i].db);
        assert rest[j - 1] == todo[j];
      }
    }
  }

  lemma AddedOne(w: World, mid: World, v: World, todo: seq<Object>, k: nat)
    requires todo != [] && mid.objects == w.objects[todo[0] := Ours] && Added(mid, v, todo[1..], k)
    ensures Added(w, v, todo, k + 1)
  {
    assert todo[..k + 1] == [todo[0]] + todo[1..][..k];
  }

  // Left alone, a run makes its targets its own one after the other, up to the first that
  // is foreign, and stops there, or after the last; nothing else changes. It takes at most
  // five statements a target.
  lemma {:induction false} RunAlone(w: World, pid: nat, todo: seq<Object>) returns (n: nat, k: nat, v: World)
    requires Inv(w) && pid in w.procs && w.procs[pid] == AskExists(todo) && todo != [] && Placed(w, todo)
    ensures n <= 5 * |todo| && Solo(w, pid, n, v) && v.procs == w.procs[pid := Stopped]
    ensures k <= |todo| && Added(w, v, todo, k) && (forall i :: 0 <= i < k ==> !Foreigns(w, todo[i]))
    ensures k < |todo| ==> Foreigns(w, todo[k])
    decreases |todo|
  {
    hide Inv, Solo, Placed, Added, Foreigns, Reg;
    if Foreigns(w, todo[0]) {
      ForeignUnregistered(w, todo[0]);
      StopsAtForeign(w, pid, todo);
      n, k, v := 2, 0, Goto(w, pid, Stopped);
      AddedNone(w, v, todo);
    } else {
      var mid;
      n, mid := MakesOne(w, pid, todo);
      ForeignsSame(w, mid, todo[0]);
      if |todo| == 1 {
        k, v := 1, mid;
        AddedNone(mid, mid, todo[1..]);
        AddedOne(w, mid, mid, todo, 0);
      } else {
        var m;
        PlacedNext(w, mid, todo);
        m, k, v := RunAlone(mid, pid, todo[1..]);
        SoloAppend(w, pid, n, mid, m, v);
        AddedOne(w, mid, v, todo, k);
        n, k := n + m, k + 1;
        assert v.procs == w.procs[pid := Stopped];
        forall i | 0 <= i < k
          ensures !Foreigns(w, todo[i])
        {
          assert i > 0 ==> todo[i] == todo[1..][i - 1];
        }
      }
    }
  }

  lemma AddedNone(w: World, v: World, todo: seq<Object>)
    requires v.objects == w.objects
    ensures Added(w, v, todo, 0)
  {
  }

  lemma ForeignsSame(w: World, v: World, o: Object)
    requires !Foreigns(w, o) && v.objects == w.objects[o := Ours]
    ensures forall p :: Foreigns(w, p) <==> Foreigns(v, p)
  {
  }

  lemma ForeignUnregistered(w: World, o: Object)
    requires Inv(w) && Foreigns(w, o)
    ensures o in w.objects && Reg(o) !in w.registry
  {
  }

  lemma TargetsPlaced(w: World, db: string, tables: seq<string>)
    ensures Placed(w, Targets(db, tables))
    ensures forall o :: o in Targets(db, tables) <==> o == Database(db) || (o.TableOf? && o.db == db && o.table in tables)
  {
    var todo := Targets(db, tables);
    assert todo[0] == Database(db);
    forall t | t in tables
      ensures TableOf(db, t) in todo
    {
      var i :| 0 <= i < |tables| && tables[i] == t;
      assert todo[i + 1] == TableOf(db, t);
    }
  }

  // A run that no one disturbs leaves its database and all its tables as its own, unless
  // one of these names is foreign: then it stops before changing anything of that name.
  lemma RunMaterializes(w: World, pid: nat, db: string, tables: seq<string>) returns (n: nat, v: World)
    requires Inv(w) && Enabled(w, StartRun(pid, db, tables))
    ensures n <= 5 * (|tables| + 1) && Solo(Apply(w, StartRun(pid, db, tables)), pid, n, v) && pid in v.procs && v.procs[pid] == Stopped
    ensures (forall o :: Foreigns(w, o) <==> Foreigns(v, o))
    ensures !Foreigns(w, Database(db)) && (forall t :: t in tables ==> !Foreigns(w, TableOf(db, t))) ==>
              && (forall o :: o in v.objects <==>
                    o in w.objects || o == Database(db) || (o.TableOf? && o.db == db && o.table in tables))
              && Database(db) in v.objects && v.objects[Database(db)] == Ours
              && forall t :: t in tables ==> TableOf(db, t) in v.objects && v.objects[TableOf(db, t)] == Ours
  {
    hide Inv, Solo, Placed, Targets;
    var todo := Targets(db, tables);
    TargetsPlaced(w, db, tables);
    EventInv(w, StartRun(pid, db, tables));
    assert Database(db) in todo;
    TargetsLength(db, tables);
    var u, k := Apply(w, StartRun(pid, db, tables)), 0;
    TargetsPlaced(u, db, tables);
    n, k, v := RunAlone(u, pid, todo);
    assert todo[..|todo|] == todo;
    assert forall o :: o in todo[..k] ==> !Foreigns(w, o);
  }

  lemma TargetsLength(db: string, tables: seq<string>)
    ensures |Targets(db, tables)| == |tables| + 1
  {
  }

  // --- A cleanup ---

  predicate Protected(db: string) {
    db in ["system", "default", "INFORMATION_SCHEMA", "information_schema", "_temporary_and_external_tables"]
  }

  // A registry row of this list names the object, or the database it is in.
  predicate Listed(names: seq<string>, databases: seq<string>, o: Object) {
    (o.TableOf? && o.db + "." + o.table in names) || o.db in databases
  }

  // Of w's objects exactly the listed ones outside the protected databases are gone.
  ghost predicate Dropped(w: World, v: World, names: seq<string>, databases: seq<string>) {
    && (forall o :: o in v.objects <==> o in w.objects && (Protected(o.db) || !Listed(names, databases, o)))
    && (forall o :: o in v.objects ==> v.objects[o] == w.objects[o])
    && v.registry == w.registry
  }

  ghost predicate DotFree(w: World) {
    forall o :: o in w.objects ==> NoDot(o.db)
  }

  lemma DropsOneTable(w: World, pid: nat, names: seq<string>, databases: seq<string>)
    requires DotFree(w) && pid in w.procs && w.procs[pid] == Cleanup(names, databases) && names != []
    ensures Dropped(w, StepProc(w, pid), [names[0]], [])
  {
    SplitRejoins(names[0]);
    forall o | o in w.objects && o.TableOf? && o.db + "." + o.table == names[0]
      ensures SplitName(names[0]) == Parts(o.db, o.table)
    {
      SplitJoins(o.db, o.table);
    }
  }

  lemma DropsOneDatabase(w: World, pid: nat, databases: seq<string>)
    requires pid in w.procs && w.procs[pid] == Cleanup([], databases) && databases != []
    ensures Dropped(w, StepProc(w, pid), [], [databases[0]])
  {
  }

  lemma DropsMore(w: World, mid: World, v: World, names: seq<string>, databases: seq<string>, moreNames: seq<string>, moreDatabases: seq<string>)
    requires Dropped(w, mid, names, databases) && Dropped(mid, v, moreNames, moreDatabases)
    ensures Dropped(w, v, names + moreNames, databases + moreDatabases)
  {
  }

  // Left alone, a cleanup drops exactly what the rows it has read name, and every object
  // of the databases among them, except in the five protected databases.
  lemma {:induction false} CleanupAlone(w: World, pid: nat, names: seq<string>, databases: seq<string>) returns (v: World)
    requires DotFree(w) && pid in w.procs && w.procs[pid] == Cleanup(names, databases)
    ensures Solo(w, pid, |names| + |databases| + 1, v) && v.procs == w.procs[pid := Stopped]
    ensures Dropped(w, v, names, databases)
    decreases |names| + |databases|
  {
    hide SplitName, Without, Dropped, Solo, DropTableNamed, DropDatabaseNamed, Listed;
    var next := StepProc(w, pid);
    if names != [] {
      DropsOneTable(w, pid, names, databases);
      StillDotFree(w, next, [names[0]], []);
      v := CleanupAlone(next, pid, names[1..], databases);
      DropsMore(w, next, v, [names[0]], [], names[1..], databases);
      assert [names[0]] + names[1..] == names && [] + databases == databases;
    } else if databases != [] {
      DropsOneDatabase(w, pid, databases);
      StillDotFree(w, next, [], [databases[0]]);
      v := CleanupAlone(next, pid, [], databases[1..]);
      DropsMore(w, next, v, [], [databases[0]], [], databases[1..]);
      assert [databases[0]] + databases[1..] == databases && names + [] == names;
    } else {
      v := next;
      SoloNone(v, pid);
      NothingDropped(w, v);
    }
    SoloStep(w, pid, |names| + |databases|, v);
    assert v.procs == w.procs[pid := Stopped];
  }

  lemma StillDotFree(w: World, v: World, names: seq<string>, databases: seq<string>)
    requires DotFree(w) && Dropped(w, v, names, databases)
    ensures DotFree(v)
  {
  }

  lemma NothingDropped(w: World, v: World)
    requires v.objects == w.objects && v.registry == w.registry
    ensures Dropped(w, v, [], [])
  {
  }
}
