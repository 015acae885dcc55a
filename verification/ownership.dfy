// The sandbox ownership protocol: concurrent runs, cleanups, crashes and foreign users
// acting on one destination cluster, one store statement at a time.
module Ownership {

  datatype Object = Database(db: string) | TableOf(db: string, table: string)

  datatype Owner = Ours | Foreign

  // A row of generated_objects.
  datatype Entry = Entry(kind: string, name: string)

  const PROTECTED: set<string> :=
    {"system", "default", "INFORMATION_SCHEMA", "information_schema", "_temporary_and_external_tables"}

  function Reg(o: Object): Entry {
    match o
    case Database(db) => Entry("database", db)
    case TableOf(db, table) => Entry("table", db + "." + table)
  }

  predicate NoDot(db: string) {
    '.' !in db
  }

  // strings.SplitN(full, ".", 2), when it has two parts.
  datatype Split = NoSplit | Parts(db: string, table: string)

  function SplitName(full: string): Split {
    if full == "" then NoSplit
    else if full[0] == '.' then Parts("", full[1..])
    else
      match SplitName(full[1..])
      case NoSplit => NoSplit
      case Parts(db, table) => Parts([full[0]] + db, table)
  }

  lemma {:induction false} SplitJoins(db: string, table: string)
    requires NoDot(db)
    ensures SplitName(db + "." + table) == Parts(db, table)
  {
    var full := db + "." + table;
    if db != "" {
      assert full[1..] == db[1..] + "." + table;
      SplitJoins(db[1..], table);
    } else {
      assert full[1..] == table;
    }
  }

  lemma {:induction false} SplitRejoins(full: string)
    ensures SplitName(full).Parts? ==>
      full == SplitName(full).db + "." + SplitName(full).table && NoDot(SplitName(full).db)
  {
    if full != "" && full[0] != '.' {
      SplitRejoins(full[1..]);
    }
  }

  // Cleanup reads a registry row back as the table it was written for exactly when the
  // database name holds no dot.
  lemma ReadsBackIff(db: string, table: string)
    ensures SplitName(db + "." + table) == Parts(db, table) <==> NoDot(db)
  {
    if NoDot(db) {
      SplitJoins(db, table);
    } else if SplitName(db + "." + table) == Parts(db, table) {
      SplitRejoins(db + "." + table);
    }
  }

  // With dot-free database names, a registry row names one object.
  lemma RegInjective(o: Object, p: Object)
    requires NoDot(o.db) && NoDot(p.db) && Reg(o) == Reg(p)
    ensures o == p
  {
    if o.TableOf? {
      SplitJoins(o.db, o.table);
      SplitJoins(p.db, p.table);
    }
  }

  // Each registry row names one object of these databases.
  ghost predicate RowsUnique(dbs: iset<string>) {
    forall o: Object, p: Object :: o.db in dbs && p.db in dbs && Reg(o) == Reg(p) ==> o == p
  }

  // That is so, whatever tables they have, exactly when no database of them is named like
  // another one with a dot and anything after it.
  lemma RowsUniqueIff(dbs: iset<string>)
    ensures RowsUnique(dbs) <==> forall d, e :: d in dbs && e in dbs ==> !(d + "." <= e)
  {
    if d, e :| d in dbs && e in dbs && d + "." <= e {
      var o, p := TableOf(d, e[|d| + 1..] + "."), TableOf(e, "");
      assert Reg(o).name == Reg(p).name by {
        assert e == d + "." + e[|d| + 1..];
      }
      assert o.db in dbs && p.db in dbs && o != p;
    } else {
      forall o: Object, p: Object | o.db in dbs && p.db in dbs && Reg(o) == Reg(p)
        ensures o == p
      {
        if o.TableOf? {
          if |o.db| <= |p.db| {
            SameRow(o, p);
          } else {
            SameRow(p, o);
          }
        }
      }
    }
  }

  lemma SameRow(o: Object, p: Object)
    requires o.TableOf? && p.TableOf? && Reg(o) == Reg(p) && |o.db| <= |p.db|
    ensures o == p || o.db + "." <= p.db
  {
    var n, row := |o.db|, Reg(o).name;
    assert row[..n + 1] == o.db + "." && row[..|p.db| + 1] == p.db + ".";
    assert row[n + 1..] == o.table && row[|p.db| + 1..] == p.table;
    if n < |p.db| {
      assert p.db[..n + 1] == row[..|p.db| + 1][..n + 1];
    } else {
      assert o.db == row[..n] == p.db;
    }
  }

  // With a dot in a database name, two tables share a row, and cleanup would pick the
  // other one.
  lemma DottedNamesCollide()
    ensures Reg(TableOf("a.b", "c")) == Reg(TableOf("a", "b.c"))
    ensures SplitName(Reg(TableOf("a.b", "c")).name) == Parts("a", "b.c")
  {
    assert "a.b" + "." + "c" == "a" + "." + "b.c";
    SplitJoins("a", "b.c");
  }

  // --- The tool's processes ---

  datatype Proc =
    | AskExists(todo: seq<Object>)
    | AskRegistered(todo: seq<Object>)
    | Register(todo: seq<Object>, exists_: bool)
    | Drop(todo: seq<Object>)
    | Create(todo: seq<Object>)
    | Cleanup(tables: seq<string>, databases: seq<string>)
    | Stopped

  datatype World = World(objects: map<Object, Owner>, registry: set<Entry>, procs: map<nat, Proc>)

  datatype Event =
    | StartRun(pid: nat, db: string, tables: seq<string>)
    | StartCleanup(pid: nat, names: seq<string>, databases: seq<string>)
    | Step(pid: nat)          // the process's next statement
    | Skip(pid: nat)          // a failed table is noted and the run goes on
    | Crash(pid: nat)
    | ForeignCreate(o: Object)
    | ForeignDrop(o: Object)

  function Targets(db: string, tables: seq<string>): seq<Object> {
    [Database(db)] + seq(|tables|, i requires 0 <= i < |tables| => TableOf(db, tables[i]))
  }

  function Without(objects: map<Object, Owner>, o: Object): map<Object, Owner> {
    match o
    case Database(db) => map p | p in objects && p.db != db :: objects[p]
    case TableOf(_, _) => objects - {o}
  }

  function Next(todo: seq<Object>): Proc
    requires todo != []
  {
    if |todo| == 1 then Stopped else AskExists(todo[1..])
  }

  predicate Busy(p: Proc) {
    p.AskExists? || p.AskRegistered? || p.Register? || p.Drop? || p.Create?
  }

  // One statement of a process, with the error returns of the source.
  function StepProc(w: World, pid: nat): World
    requires pid in w.procs && (Busy(w.procs[pid]) ==> w.procs[pid].todo != [])
  {
    match w.procs[pid]
    case AskExists(todo) =>
      Goto(w, pid, if todo[0] in w.objects then AskRegistered(todo) else Register(todo, false))
    case AskRegistered(todo) =>
      Goto(w, pid, if Reg(todo[0]) in w.registry then Register(todo, true) else Stopped)
    case Register(todo, exists_) =>
      Goto(w.(registry := w.registry + {Reg(todo[0])}), pid,
           if exists_ && todo[0].TableOf? then Drop(todo) else Create(todo))
    case Drop(todo) =>
      if todo[0] in w.objects then Goto(w.(objects := Without(w.objects, todo[0])), pid, Create(todo))
      else Goto(w, pid, Stopped)
    case Create(todo) =>
      (match todo[0]
       case Database(db) =>
         Goto(if todo[0] in w.objects then w else w.(objects := w.objects[todo[0] := Ours]), pid, Next(todo))
       case TableOf(db, table) =>
         if todo[0] in w.objects || Database(db) !in w.objects then Goto(w, pid, Stopped)
         else Goto(w.(objects := w.objects[todo[0] := Ours]), pid, Next(todo)))
    case Cleanup(names, databases) =>
      if names != [] then
        Goto(w.(objects := DropTableNamed(w.objects, names[0])), pid, Cleanup(names[1..], databases))
      else if databases != [] then
        Goto(w.(objects := DropDatabaseNamed(w.objects, databases[0])), pid, Cleanup([], databases[1..]))
      else Goto(w, pid, Stopped)
    case Stopped => w
  }

  function Goto(w: World, pid: nat, p: Proc): World {
    w.(procs := w.procs[pid := p])
  }

  function DropTableNamed(objects: map<Object, Owner>, full: string): map<Object, Owner> {
    match SplitName(full)
    case NoSplit => objects
    case Parts(db, table) => if db in PROTECTED then objects else Without(objects, TableOf(db, table))
  }

  function DropDatabaseNamed(objects: map<Object, Owner>, db: string): map<Object, Owner> {
    if db in PROTECTED then objects else Without(objects, Database(db))
  }

  // Some process has found the name free and not yet registered it.
  ghost predicate Claimed(w: World, o: Object) {
    exists pid :: pid in w.procs && w.procs[pid].Register? && w.procs[pid].todo != [] && w.procs[pid].todo[0] == o
  }

  // What may happen. Foreign users do not take registered names, nor a name between a
  // process's check and its registration. Any other name is theirs to take, in any
  // database, the tool's own included.
  ghost predicate Enabled(w: World, e: Event) {
    match e
    case StartRun(pid, db, tables) => pid !in w.procs && NoDot(db) && tables != []
    case StartCleanup(pid, names, databases) =>
      && pid !in w.procs
      && (forall n :: n in names <==> Entry("table", n) in w.registry)
      && (forall d :: d in databases <==> Entry("database", d) in w.registry)
    case Step(pid) => pid in w.procs && (Busy(w.procs[pid]) ==> w.procs[pid].todo != [])
    case Skip(pid) => pid in w.procs && Busy(w.procs[pid]) && w.procs[pid].todo != [] && w.procs[pid].todo[0].TableOf?
    case Crash(pid) => pid in w.procs
    case ForeignCreate(o) =>
      && o !in w.objects && NoDot(o.db)
      && (o.TableOf? ==> Database(o.db) in w.objects)
      && Reg(o) !in w.registry && !Claimed(w, o)
    case ForeignDrop(o) => true
  }

  function Apply(w: World, e: Event): World
    requires Enabled(w, e)
  {
    match e
    case StartRun(pid, db, tables) => Goto(w, pid, AskExists(Targets(db, tables)))
    case StartCleanup(pid, names, databases) => Goto(w, pid, Cleanup(names, databases))
    case Step(pid) => StepProc(w, pid)
    case Skip(pid) => Goto(w, pid, Next(w.procs[pid].todo))
    case Crash(pid) => Goto(w, pid, Stopped)
    case ForeignCreate(o) => w.(objects := w.objects[o := Foreign])
    case ForeignDrop(o) => w.(objects := Without(w.objects, o))
  }

  // --- What every step keeps ---

  ghost predicate Owned(w: World) {
    && (forall o :: o in w.objects ==> NoDot(o.db) && (o.TableOf? ==> Database(o.db) in w.objects))
    && (forall o :: o in w.objects && w.objects[o] == Ours ==> Reg(o) in w.registry)
    && (forall o :: o in w.objects && w.objects[o] == Foreign ==> Reg(o) !in w.registry)
  }

  ghost predicate ProcOk(w: World, p: Proc) {
    match p
    case AskExists(todo) => TodoOk(todo)
    case AskRegistered(todo) => TodoOk(todo)
    case Register(todo, exists_) => TodoOk(todo) && (todo[0] in w.objects ==> w.objects[todo[0]] == Ours)
    case Drop(todo) => TodoOk(todo) && todo[0].TableOf? && Reg(todo[0]) in w.registry
    case Create(todo) => TodoOk(todo) && Reg(todo[0]) in w.registry
    case Cleanup(names, databases) =>
      && (forall n :: n in names ==> Entry("table", n) in w.registry)
      && (forall d :: d in databases ==> Entry("database", d) in w.registry)
    case Stopped => true
  }

  ghost predicate TodoOk(todo: seq<Object>) {
    todo != [] && forall i :: 0 <= i < |todo| ==> NoDot(todo[i].db)
  }

  ghost predicate Inv(w: World) {
    && Owned(w)
    && forall pid :: pid in w.procs ==> ProcOk(w, w.procs[pid])
  }

  ghost predicate Init(w: World) {
    && w.registry == {} && w.procs == map[]
    && forall o :: o in w.objects ==> w.objects[o] == Foreign && NoDot(o.db) && (o.TableOf? ==> Database(o.db) in w.objects)
  }

  lemma InitInv(w: World)
    requires Init(w)
    ensures Inv(w)
  {
  }

  // --- Every event keeps the invariant ---

  lemma GotoInv(w: World, pid: nat, p: Proc)
    requires Inv(w) && ProcOk(w, p)
    ensures Inv(Goto(w, pid, p))
  {
    ProcsSameStore(w, Goto(w, pid, p), p);
    forall q | q in Goto(w, pid, p).procs
      ensures ProcOk(Goto(w, pid, p), Goto(w, pid, p).procs[q])
    {
      if q != pid {
        ProcsSameStore(w, Goto(w, pid, p), w.procs[q]);
      }
    }
  }

  lemma ProcsSameStore(w: World, v: World, p: Proc)
    requires w.objects == v.objects && w.registry == v.registry
    ensures ProcOk(w, p) == ProcOk(v, p)
  {
  }

  lemma NextOk(w: World, todo: seq<Object>)
    requires TodoOk(todo)
    ensures ProcOk(w, Next(todo))
  {
  }

  // Losing objects, database by database or table by table, breaks nothing.
  lemma WithoutInv(w: World, o: Object)
    requires Inv(w)
    ensures Inv(w.(objects := Without(w.objects, o)))
  {
    var v := w.(objects := Without(w.objects, o));
    forall pid | pid in v.procs
      ensures ProcOk(v, v.procs[pid])
    {
      assert ProcOk(w, w.procs[pid]);
    }
  }

  lemma RegisterInv(w: World, o: Object)
    requires Inv(w) && NoDot(o.db)
    requires o in w.objects ==> w.objects[o] == Ours
    ensures Inv(w.(registry := w.registry + {Reg(o)}))
  {
    var v := w.(registry := w.registry + {Reg(o)});
    forall p | p in v.objects && v.objects[p] == Foreign
      ensures Reg(p) !in v.registry
    {
      if Reg(p) == Reg(o) {
        RegInjective(p, o);
      }
    }
    forall pid | pid in v.procs
      ensures ProcOk(v, v.procs[pid])
    {
      assert ProcOk(w, w.procs[pid]);
    }
  }

  lemma CreateInv(w: World, o: Object)
    requires Inv(w) && NoDot(o.db) && Reg(o) in w.registry && o !in w.objects
    requires o.TableOf? ==> Database(o.db) in w.objects
    ensures Inv(w.(objects := w.objects[o := Ours]))
  {
    var v := w.(objects := w.objects[o := Ours]);
    forall pid | pid in v.procs
      ensures ProcOk(v, v.procs[pid])
    {
      assert ProcOk(w, w.procs[pid]);
    }
  }

  lemma ForeignCreateInv(w: World, o: Object)
    requires Inv(w) && Enabled(w, ForeignCreate(o))
    ensures Inv(w.(objects := w.objects[o := Foreign]))
  {
    var v := w.(objects := w.objects[o := Foreign]);
    forall pid | pid in v.procs
      ensures ProcOk(v, v.procs[pid])
    {
      var p := w.procs[pid];
      assert ProcOk(w, p);
      if p.Register? {
        assert p.todo[0] != o;
      }
    }
  }

  lemma StepInv(w: World, pid: nat)
    requires Inv(w) && Enabled(w, Step(pid))
    ensures Inv(StepProc(w, pid))
  {
    var p := w.procs[pid];
    assert ProcOk(w, p);
    match p
    case AskExists(todo) =>
      GotoInv(w, pid, if todo[0] in w.objects then AskRegistered(todo) else Register(todo, false));
    case AskRegistered(todo) =>
      GotoInv(w, pid, if Reg(todo[0]) in w.registry then Register(todo, true) else Stopped);
    case Register(todo, exists_) =>
      RegisterInv(w, todo[0]);
      GotoInv(w.(registry := w.registry + {Reg(todo[0])}), pid,
              if exists_ && todo[0].TableOf? then Drop(todo) else Create(todo));
    case Drop(todo) =>
      WithoutInv(w, todo[0]);
      GotoInv(w.(objects := Without(w.objects, todo[0])), pid, Create(todo));
      GotoInv(w, pid, Stopped);
    case Create(todo) =>
      NextOk(w, todo);
      GotoInv(w, pid, Stopped);
      GotoInv(w, pid, Next(todo));
      if todo[0] !in w.objects && (todo[0].TableOf? ==> Database(todo[0].db) in w.objects) {
        CreateInv(w, todo[0]);
        NextOk(w.(objects := w.objects[todo[0] := Ours]), todo);
        GotoInv(w.(objects := w.objects[todo[0] := Ours]), pid, Next(todo));
      }
    case Cleanup(names, databases) => CleanupInv(w, pid, names, databases);
    case Stopped =>
  }

  lemma CleanupInv(w: World, pid: nat, names: seq<string>, databases: seq<string>)
    requires Inv(w) && pid in w.procs && w.procs[pid] == Cleanup(names, databases)
    ensures Inv(StepProc(w, pid))
  {
    assert ProcOk(w, w.procs[pid]);
    if names != [] {
      match SplitName(names[0])
      case Parts(db, table) => WithoutInv(w, TableOf(db, table));
      case NoSplit =>
      GotoInv(w.(objects := DropTableNamed(w.objects, names[0])), pid, Cleanup(names[1..], databases));
    } else if databases != [] {
      WithoutInv(w, Database(databases[0]));
      GotoInv(w.(objects := DropDatabaseNamed(w.objects, databases[0])), pid, Cleanup([], databases[1..]));
    } else {
      GotoInv(w, pid, Stopped);
    }
  }

  lemma EventInv(w: World, e: Event)
    requires Inv(w) && Enabled(w, e)
    ensures Inv(Apply(w, e))
  {
    match e
    case StartRun(pid, db, tables) => GotoInv(w, pid, AskExists(Targets(db, tables)));
    case StartCleanup(pid, names, databases) => GotoInv(w, pid, Cleanup(names, databases));
    case Step(pid) => StepInv(w, pid);
    case Skip(pid) =>
      assert ProcOk(w, w.procs[pid]);
      NextOk(w, w.procs[pid].todo);
      GotoInv(w, pid, Next(w.procs[pid].todo));
    case Crash(pid) => GotoInv(w, pid, Stopped);
    case ForeignCreate(o) => ForeignCreateInv(w, o);
    case ForeignDrop(o) => WithoutInv(w, o);
  }

  // --- Safety ---

  // A cleanup is about to drop this database.
  predicate Dropping(w: World, e: Event, db: string) {
    && e.Step? && e.pid in w.procs && w.procs[e.pid].Cleanup?
    && w.procs[e.pid].tables == [] && w.procs[e.pid].databases != []
    && w.procs[e.pid].databases[0] == db && db !in PROTECTED
  }

  // A foreign table inside a database that is about to go.
  predicate Endangered(w: World, e: Event, o: Object) {
    o in w.objects && w.objects[o] == Foreign && o.TableOf? && Dropping(w, e, o.db)
  }

  // An object that is there before the event and not, or not as the same owner's, after it.
  ghost predicate Loses(w: World, e: Event, o: Object)
    requires Enabled(w, e)
  {
    o in w.objects && !(o in Apply(w, e).objects && Apply(w, e).objects[o] == w.objects[o])
  }

  // What one event of the tool destroys is the tool's own, or a table that goes with its
  // database: of the foreign objects, exactly the endangered ones.
  ghost predicate LosesOnlyEndangered(w: World, e: Event)
    requires Enabled(w, e)
  {
    !e.ForeignDrop? ==>
      forall o :: o in w.objects && w.objects[o] == Foreign ==> (Loses(w, e, o) <==> Endangered(w, e, o))
  }

  lemma EventSafe(w: World, e: Event)
    requires Inv(w) && Enabled(w, e)
    ensures LosesOnlyEndangered(w, e)
  {
    if e.Step? {
      var p := w.procs[e.pid];
      assert ProcOk(w, p);
      if p.Cleanup? {
        CleanupSafe(w, e.pid, p.tables, p.databases);
      }
    }
  }

  lemma CleanupSafe(w: World, pid: nat, names: seq<string>, databases: seq<string>)
    requires Inv(w) && pid in w.procs && w.procs[pid] == Cleanup(names, databases)
    ensures LosesOnlyEndangered(w, Step(pid))
  {
    assert ProcOk(w, w.procs[pid]);
    forall o | o in w.objects && w.objects[o] == Foreign
      ensures Loses(w, Step(pid), o) <==> Endangered(w, Step(pid), o)
    {
      if names != [] && o.TableOf? {
        SplitJoins(o.db, o.table);
        SplitRejoins(names[0]);
        assert Reg(o) != Entry("table", names[0]);
      } else if names == [] && databases != [] {
        assert Entry("database", databases[0]) in w.registry;
        assert Reg(Database(o.db)) == Entry("database", o.db);
      }
    }
  }

  // A run that finds its next name taken stops there exactly when a foreigner took it.
  lemma RefusesExactlyForeign(w: World, pid: nat, todo: seq<Object>)
    requires Inv(w) && pid in w.procs && w.procs[pid] == AskRegistered(todo)
    ensures todo != [] && (todo[0] in w.objects ==>
              (StepProc(w, pid).procs[pid] == Stopped <==> w.objects[todo[0]] == Foreign))
  {
    assert ProcOk(w, w.procs[pid]);
  }

  ghost predicate Runs(w: World, events: seq<Event>)
    decreases |events|
  {
    events != [] ==> Enabled(w, events[0]) && Runs(Apply(w, events[0]), events[1..])
  }

  ghost function After(w: World, events: seq<Event>): World
    requires Runs(w, events)
    decreases |events|
  {
    if events == [] then w else After(Apply(w, events[0]), events[1..])
  }

  // At every event of a run, of the foreign objects exactly the endangered ones go.
  ghost predicate SafeThroughout(w: World, events: seq<Event>)
    requires Runs(w, events)
    decreases |events|
  {
    events != [] ==> LosesOnlyEndangered(w, events[0]) && SafeThroughout(Apply(w, events[0]), events[1..])
  }

  ghost predicate HarmsNow(w: World, e: Event)
    requires Enabled(w, e)
  {
    !e.ForeignDrop? && exists o :: o in w.objects && w.objects[o] == Foreign && Loses(w, e, o)
  }

  ghost predicate DropsSquattersNow(w: World, e: Event) {
    exists o :: Endangered(w, e, o) && Reg(Database(o.db)) in w.registry
  }

  // Somewhere in the run, the tool takes away something foreign.
  ghost predicate HarmsForeign(w: World, events: seq<Event>)
    requires Runs(w, events)
    decreases |events|
  {
    events != [] && (HarmsNow(w, events[0]) || HarmsForeign(Apply(w, events[0]), events[1..]))
  }

  // Somewhere in the run, a cleanup drops a registered, unprotected database while a
  // foreign table is in it.
  ghost predicate DropsSquatters(w: World, events: seq<Event>)
    requires Runs(w, events)
    decreases |events|
  {
    events != [] && (DropsSquattersNow(w, events[0]) || DropsSquatters(Apply(w, events[0]), events[1..]))
  }

  lemma HarmsNowIff(w: World, e: Event)
    requires Inv(w) && Enabled(w, e)
    ensures HarmsNow(w, e) <==> DropsSquattersNow(w, e)
  {
    EventSafe(w, e);
    if e.Step? && w.procs[e.pid].Cleanup? {
      assert ProcOk(w, w.procs[e.pid]);
    }
    hide Inv, Loses;
    if o :| Endangered(w, e, o) {
      assert o.db in w.procs[e.pid].databases;
      assert Loses(w, e, o);
    }
  }

  lemma {:induction false} RunKeepsInv(w: World, events: seq<Event>)
    requires Inv(w) && Runs(w, events)
    ensures Inv(After(w, events)) && SafeThroughout(w, events)
    ensures HarmsForeign(w, events) <==> DropsSquatters(w, events)
    decreases |events|
  {
    hide Inv, Enabled, Apply, HarmsNow, DropsSquattersNow, LosesOnlyEndangered;
    if events != [] {
      EventInv(w, events[0]);
      EventSafe(w, events[0]);
      HarmsNowIff(w, events[0]);
      RunKeepsInv(Apply(w, events[0]), events[1..]);
    }
  }

  // Over every run of any number of concurrent tool processes, crashes and foreign
  // actions: what the tool created is registered, no foreign object's name is; and the
  // tool takes something foreign away exactly when a cleanup drops a registered,
  // unprotected database with a foreign table in it.
  lemma OwnershipOverAllRuns(w: World, events: seq<Event>)
    requires Init(w) && Runs(w, events)
    ensures var v := After(w, events);
            && (forall o :: o in v.objects && v.objects[o] == Ours ==> Reg(o) in v.registry)
            && (forall o :: o in v.objects && v.objects[o] == Foreign ==> Reg(o) !in v.registry)
    ensures SafeThroughout(w, events)
    ensures HarmsForeign(w, events) <==> DropsSquatters(w, events)
  {
    InitInv(w);
    RunKeepsInv(w, events);
  }

  // Whatever the registry holds, a cleanup never touches a protected database.
  lemma CleanupSparesProtected(w: World, pid: nat, o: Object)
    requires pid in w.procs && w.procs[pid].Cleanup? && o in w.objects && o.db in PROTECTED
    ensures o in StepProc(w, pid).objects
  {
  }

  // One drop of a registered database harms foreigners exactly by the tables inside it.
  lemma DropDatabaseCascades(w: World, pid: nat, databases: seq<string>)
    requires Owned(w) && pid in w.procs && w.procs[pid] == Cleanup([], databases)
    requires databases != [] && databases[0] !in PROTECTED && Entry("database", databases[0]) in w.registry
    ensures HarmsNow(w, Step(pid)) <==>
            exists t :: t in w.objects && t.TableOf? && t.db == databases[0] && w.objects[t] == Foreign
  {
    var d := databases[0];
    if t :| t in w.objects && t.TableOf? && t.db == d && w.objects[t] == Foreign {
      assert Loses(w, Step(pid), t);
    } else {
      assert Reg(Database(d)) in w.registry;
      assert forall o :: o in w.objects && w.objects[o] == Foreign ==> !Loses(w, Step(pid), o);
    }
  }

  // --- A run that loses a foreign table ---

  const HOME := Database("d")
  const SQUATTER := TableOf("d", "x")
  const TODO: seq<Object> := [HOME, TableOf("d", "t")]

  // The tool creates database d, somebody puts a table into it, and a cleanup drops d.
  function Squatting(): (es: seq<Event>)
    ensures |es| == 7
  {
    [StartRun(0, "d", ["t"]), Step(0), Step(0), Step(0), ForeignCreate(SQUATTER), StartCleanup(1, [], ["d"]), Step(1)]
  }

  // The world after k of these events.
  function Passed(k: nat): World {
    var registered := {Entry("database", "d")};
    match k
    case 0 => World(map[], {}, map[])
    case 1 => World(map[], {}, map[0 := AskExists(TODO)])
    case 2 => World(map[], {}, map[0 := Register(TODO, false)])
    case 3 => World(map[], registered, map[0 := Create(TODO)])
    case 4 => World(map[HOME := Ours], registered, map[0 := AskExists([TODO[1]])])
    case 5 => World(map[HOME := Ours, SQUATTER := Foreign], registered, map[0 := AskExists([TODO[1]])])
    case 6 => World(map[HOME := Ours, SQUATTER := Foreign], registered,
                    map[0 := AskExists([TODO[1]]), 1 := Cleanup([], ["d"])])
    case _ => World(map[], registered, map[0 := AskExists([TODO[1]]), 1 := Cleanup([], [])])
  }

  lemma SquattingStep(k: nat)
    requires k < 7
    ensures Enabled(Passed(k), Squatting()[k]) && Apply(Passed(k), Squatting()[k]) == Passed(k + 1)
  {
    assert Targets("d", ["t"]) == TODO && TODO[1..] == [TODO[1]];
    assert ["d"][1..] == [];
    if k == 4 {
      assert Reg(SQUATTER) == Entry("table", "d.x");
    }
  }

  lemma {:induction false} SquattingFrom(k: nat)
    requires k <= 7
    ensures Runs(Passed(k), Squatting()[k..]) && After(Passed(k), Squatting()[k..]) == Passed(7)
    ensures k <= 6 ==> HarmsForeign(Passed(k), Squatting()[k..])
    decreases 7 - k
  {
    hide Apply, Enabled, Passed, HarmsNow, Squatting;
    if k < 7 {
      SquattingStep(k);
      SquattingFrom(k + 1);
      assert Squatting()[k..][1..] == Squatting()[k + 1..];
      if k == 6 {
        SquatterGoes();
      }
    }
  }

  lemma SquatterGoes()
    ensures Enabled(Passed(6), Squatting()[6]) && HarmsNow(Passed(6), Squatting()[6])
  {
    SquattingStep(6);
    assert Loses(Passed(6), Squatting()[6], SQUATTER);
  }

  // From an empty cluster, every event of it allowed.
  lemma SquatterIsLost()
    ensures var w := World(map[], {}, map[]);
            Init(w) && Runs(w, Squatting()) && HarmsForeign(w, Squatting()) && After(w, Squatting()).objects == map[]
  {
    hide Squatting, Runs, HarmsForeign, After, Apply, Enabled;
    SquattingFrom(0);
    assert Squatting()[0..] == Squatting();
  }
}
