// The destination cluster as the sandbox code changes it: one run or one cleanup at a
// time, stopping after any number of statements.
module Sandbox {
  import opened Ownership

  datatype Ensured = Absent | OursExists | ForeignExists

  datatype Outcome = Completed | Refused(o: Object) | Crashed

  class Destination {
    var objects: map<Object, Owner>
    var registry: set<Entry>

    constructor (existing: map<Object, Owner>)
      requires Init(World(existing, {}, map[]))
      ensures objects == existing && registry == {} && Consistent()
    {
      objects, registry := existing, {};
    }

    ghost predicate Consistent()
      reads this
    {
      Inv(World(objects, registry, map[]))
    }

    // Foreign objects are exactly those of an earlier state.
    ghost predicate SameForeign(before: map<Object, Owner>)
      reads this
    {
      forall o :: (o in objects && objects[o] == Foreign) <==> (o in before && before[o] == Foreign)
    }

    method EnsureOurs(o: Object) returns (r: Ensured)
      ensures r == if o !in objects then Absent else if Reg(o) in registry then OursExists else ForeignExists
    {
      var exists_ := o in objects;
      if !exists_ {
        return Absent;
      }
      var ours := IsRegistered(o);
      r := if ours then OursExists else ForeignExists;
    }

    method IsRegistered(o: Object) returns (b: bool)
      ensures b <==> Reg(o) in registry
    {
      b := Reg(o) in registry;
    }

    method RegisterObject(o: Object)
      modifies this`registry
      ensures registry == old(registry) + {Reg(o)}
    {
      registry := registry + {Reg(o)};
    }

    // One target: check, register, drop our old table, create.
    method Materialize(o: Object, statements: nat) returns (r: Outcome, left: nat)
      requires Consistent() && NoDot(o.db)
      requires o.TableOf? ==> Database(o.db) in objects
      modifies this
      ensures Consistent() && SameForeign(old(objects)) && old(registry) <= registry
      ensures r.Refused? <==> r == Refused(o) && o in old(objects) && old(objects)[o] == Foreign && statements >= 2
      ensures r.Completed? ==> o in objects && objects[o] == Ours
      ensures r.Refused? ==> objects == old(objects) && registry == old(registry)
      ensures forall p :: p in old(objects) && p != o ==> p in objects && objects[p] == old(objects)[p]
      ensures r.Crashed? ==> statements < 5
      ensures !r.Crashed? ==> left + 5 >= statements
    {
      left := statements;
      if left < 2 {
        return Crashed, 0;
      }
      left := left - 2;
      var e := EnsureOurs(o);
      if e.ForeignExists? {
        return Refused(o), left;
      }
      if left == 0 {
        return Crashed, 0;
      }
      left := left - 1;
      RegisterInv(World(objects, registry, map[]), o);
      RegisterObject(o);
      if e.OursExists? && o.TableOf? {
        if left == 0 {
          return Crashed, 0;
        }
        left := left - 1;
        WithoutInv(World(objects, registry, map[]), o);
        objects := Without(objects, o);
      }
      if left == 0 {
        return Crashed, 0;
      }
      left := left - 1;
      if o !in objects {
        CreateInv(World(objects, registry, map[]), o);
        objects := objects[o := Ours];
      }
      r := Completed;
    }

    // The run stops at the first foreign name; whenever it stops, nothing foreign has
    // changed and everything of ours is registered. Undisturbed, it materializes all.
    method Sandbox(db: string, tables: seq<string>, statements: nat) returns (r: Outcome)
      requires Consistent() && NoDot(db)
      modifies this
      ensures Consistent() && SameForeign(old(objects)) && old(registry) <= registry
      ensures r.Refused? ==> r.o in Targets(db, tables) && r.o in old(objects) && old(objects)[r.o] == Foreign
      ensures r.Completed? && tables != [] ==>
                forall o :: o in Targets(db, tables) ==> o in objects && objects[o] == Ours
      ensures r.Crashed? ==> statements < 5 * (|tables| + 1)
      ensures statements >= 5 * (|tables| + 1) && tables != [] ==>
                (r.Refused? <==> exists o :: o in Targets(db, tables) && o in old(objects) && old(objects)[o] == Foreign)
    {
      if tables == [] {
        return Completed;
      }
      var left: nat;
      assert Targets(db, tables)[0] == Database(db);
      r, left := Materialize(Database(db), statements);
      if !r.Completed? {
        return;
      }
      for k := 0 to |tables|
        invariant Consistent() && SameForeign(old(objects)) && old(registry) <= registry
        invariant Database(db) in objects && objects[Database(db)] == Ours
        invariant forall i :: 0 <= i < k ==> TableOf(db, tables[i]) in objects && objects[TableOf(db, tables[i])] == Ours
        invariant left >= 0 && left + 5 * (k + 1) >= statements
      {
        assert Targets(db, tables)[k + 1] == TableOf(db, tables[k]);
        r, left := Materialize(TableOf(db, tables[k]), left);
        if !r.Completed? {
          return;
        }
      }
      r := Completed;
    }

    // RegisteredObjects: every name ever registered, by kind.
    function Registered(kind: string): set<string>
      reads this
    {
      set e | e in registry && e.kind == kind :: e.name
    }

    lemma OursAreListed()
      requires Consistent()
      ensures forall o :: o in objects && objects[o] == Ours ==> Reg(o).name in Registered(Reg(o).kind)
    {
      forall o | o in objects && objects[o] == Ours
        ensures Reg(o).name in Registered(Reg(o).kind)
      {
        assert Reg(o) in registry;
      }
    }

    // What a cleanup may have done so far: objects only went, none from a protected
    // database, and of the foreign ones only tables inside registered databases.
    ghost predicate Cleaned(before: map<Object, Owner>)
      reads this
    {
      && Consistent()
      && (forall o :: o in objects ==> o in before && objects[o] == before[o])
      && (forall o :: o in before && o.db in PROTECTED ==> o in objects)
      && (forall o :: o in before && before[o] == Foreign && o !in objects ==> o.TableOf? && o.db in Registered("database"))
    }

    // A finished cleanup has dropped every object of the tool's outside the protected
    // databases, and of the foreign objects exactly the tables inside its databases.
    method Cleanup(statements: nat) returns (r: Outcome)
      requires Consistent()
      modifies this`objects
      ensures Cleaned(old(objects)) && !r.Refused?
      ensures r.Completed? ==> forall o :: o in objects && objects[o] == Ours ==> o.db in PROTECTED
      ensures r.Completed? ==> forall o :: o in old(objects) && old(objects)[o] == Foreign ==>
                (o !in objects <==> o.TableOf? && o.db in Registered("database") && o.db !in PROTECTED)
      ensures r.Crashed? ==> statements < |Registered("table")| + |Registered("database")|
    {
      var left: nat;
      r, left := DropTables(statements);
      if r.Completed? {
        r := DropDatabases(left);
      }
    }

    method DropTables(statements: nat) returns (r: Outcome, left: nat)
      requires Consistent()
      modifies this`objects
      ensures Cleaned(old(objects)) && SameForeign(old(objects)) && !r.Refused?
      ensures r.Completed? ==> forall o :: o in objects && o.TableOf? && objects[o] == Ours ==> o.db in PROTECTED
      ensures if r.Crashed? then statements < |Registered("table")| else left + |Registered("table")| == statements
    {
      hide Inv, DropTableNamed;
      left := statements;
      var names := Registered("table");
      OursAreListed();
      while names != {}
        invariant Cleaned(old(objects)) && SameForeign(old(objects)) && names <= Registered("table")
        invariant forall o :: o in objects && o.TableOf? && objects[o] == Ours && o.db !in PROTECTED ==> Reg(o).name in names
        invariant left + |Registered("table")| == statements + |names|
      {
        if left == 0 {
          return Crashed, 0;
        }
        left := left - 1;
        var full :| full in names;
        DropTable(full);
        names := names - {full};
      }
      r := Completed;
    }

    method DropDatabases(statements: nat) returns (r: Outcome)
      requires Consistent()
      requires forall o :: o in objects && o.TableOf? && objects[o] == Ours ==> o.db in PROTECTED
      modifies this`objects
      ensures Cleaned(old(objects)) && !r.Refused?
      ensures r.Completed? ==> forall o :: o in objects && objects[o] == Ours ==> o.db in PROTECTED
      ensures r.Completed? ==> forall o :: o in objects ==> o.db in PROTECTED || o.db !in Registered("database")
      ensures r.Crashed? ==> statements < |Registered("database")|
    {
      hide Inv, DropDatabaseNamed;
      var left := statements;
      var databases := Registered("database");
      OursAreListed();
      while databases != {}
        invariant Cleaned(old(objects)) && databases <= Registered("database")
        invariant forall o :: o in objects && o.db !in PROTECTED && o.db in Registered("database") ==> o.db in databases
        invariant forall o :: o in objects && objects[o] == Ours && o.db !in PROTECTED ==> o.db in Registered("database")
        invariant left + |Registered("database")| == statements + |databases|
      {
        if left == 0 {
          return Crashed;
        }
        left := left - 1;
        var d :| d in databases;
        DropDatabase(d);
        databases := databases - {d};
      }
      r := Completed;
    }

    // Drops the table a registry row names, unless its database is protected. No foreign
    // object has that name.
    method DropTable(full: string)
      requires Consistent() && Entry("table", full) in registry
      modifies this`objects
      ensures Consistent() && SameForeign(old(objects))
      ensures forall o :: o in objects ==> o in old(objects) && objects[o] == old(objects)[o]
      ensures forall o :: o in old(objects) ==>
                (o !in objects <==> Reg(o) == Entry("table", full) && o.db !in PROTECTED)
    {
      var parts := SplitName(full);
      DropsItsRow(full);
      if parts.Parts? && parts.db !in PROTECTED {
        WithoutInv(World(objects, registry, map[]), TableOf(parts.db, parts.table));
        objects := Without(objects, TableOf(parts.db, parts.table));
      }
    }

    // A table row names the one object its text splits into.
    lemma DropsItsRow(full: string)
      requires Consistent() && Entry("table", full) in registry
      ensures forall o :: o in objects && Reg(o) == Entry("table", full) ==> objects[o] == Ours
      ensures var parts := SplitName(full);
              forall o :: o in objects ==>
                (Reg(o) == Entry("table", full) <==> parts.Parts? && o == TableOf(parts.db, parts.table))
    {
      hide SplitName;
      SplitRejoins(full);
      forall o | o in objects && o.TableOf?
        ensures SplitName(o.db + "." + o.table) == Parts(o.db, o.table)
      {
        SplitJoins(o.db, o.table);
      }
    }

    // Drops a database with everything in it, foreign tables included, unless it is
    // protected.
    method DropDatabase(d: string)
      requires Consistent() && Entry("database", d) in registry
      modifies this`objects
      ensures Consistent()
      ensures forall o :: o in objects ==> o in old(objects) && objects[o] == old(objects)[o]
      ensures forall o :: o in old(objects) ==> (o in objects <==> d in PROTECTED || o.db != d)
      ensures forall o :: o in old(objects) && o !in objects && old(objects)[o] == Foreign ==> o.TableOf?
    {
      assert forall o :: o in objects && o.Database? && o.db == d ==> Reg(o) in registry;
      if d !in PROTECTED {
        WithoutInv(World(objects, registry, map[]), Database(d));
        objects := Without(objects, Database(d));
      }
    }
  }
}
