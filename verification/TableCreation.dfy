/** Creating tables one after another with their indexes, and dropping them in the reverse order. */
module TableCreation {
  import opened Options
  import opened Schema

  datatype NewIndex = NewIndex(name: IndexName, columns: seq<string>, unique: bool)

  /** A table to create: what its foreign keys point at, and the indexes built on it. */
  datatype TableSpec = TableSpec(table: TableName, targets: set<TableName>, indexes: seq<NewIndex>)

  /** Each table comes after what it refers to, and no name is used twice. */
  ghost predicate Orderly(specs: seq<TableSpec>) {
    && (forall i, j :: 0 <= i < j < |specs| ==> specs[i].table != specs[j].table)
    && (forall i, t :: 0 <= i < |specs| && t in specs[i].targets ==> Earlier(specs, i, t))
    && (forall i, j, a, b ::
          (0 <= i <= j < |specs| && 0 <= a < |specs[i].indexes| && 0 <= b < |specs[j].indexes| && (i < j || a < b))
          ==> specs[i].indexes[a].name != specs[j].indexes[b].name)
  }

  ghost predicate Earlier(specs: seq<TableSpec>, i: int, t: TableName)
    requires i <= |specs|
  {
    exists k :: 0 <= k < i && specs[k].table == t
  }

  function IndexOps(spec: TableSpec, n: nat): seq<Op>
    requires n <= |spec.indexes|
  {
    if n == 0 then []
    else
      var i := spec.indexes[n - 1];
      IndexOps(spec, n - 1) + [CreateIndex(i.name, spec.table, i.columns, i.unique)]
  }

  /** Creating one table, whatever its columns, and its indexes. */
  function CreateSteps(spec: TableSpec, shape: Table): seq<Op> {
    [CreateTable(spec.table, shape)] + IndexOps(spec, |spec.indexes|)
  }

  /** Dropping its indexes, last first, and then the table. */
  function DropSteps(spec: TableSpec): seq<Op> {
    IndexDrops(spec, |spec.indexes|) + [DropTable(spec.table)]
  }

  function IndexDrops(spec: TableSpec, n: nat): seq<Op>
    requires n <= |spec.indexes|
  {
    seq(n, k requires 0 <= k < n => DropIndex(spec.indexes[n - 1 - k].name))
  }

  type Shapes = map<TableName, Table>

  /** Table definitions that hold the columns, and make only the references, the specs list. */
  ghost predicate Fitting(specs: seq<TableSpec>, shapes: Shapes) {
    forall i :: 0 <= i < |specs| ==> ShapeFits(shapes, specs[i])
  }

  ghost predicate ShapeFits(shapes: Shapes, spec: TableSpec) {
    && spec.table in shapes
    && var shape := shapes[spec.table];
    && (forall u :: u in shape.uniques ==> Covered(shape.uniques[u], shape))
    && (forall k :: k in shape.foreign ==>
          && Covered(shape.foreign[k].columns, shape)
          && shape.foreign[k].target in spec.targets
          && shape.foreign[k].target in shapes
          && Covered(shape.foreign[k].targets, shapes[shape.foreign[k].target]))
    && (forall j :: 0 <= j < |spec.indexes| ==> Covered(spec.indexes[j].columns, shape))
  }

  ghost function Up(specs: seq<TableSpec>, shapes: Shapes): seq<Op>
    requires Fitting(specs, shapes)
  {
    if |specs| == 0 then []
    else
      var last := |specs| - 1;
      Up(specs[..last], shapes) + CreateSteps(specs[last], shapes[specs[last].table])
  }

  function Down(specs: seq<TableSpec>): seq<Op> {
    if |specs| == 0 then [] else DropSteps(specs[|specs| - 1]) + Down(specs[..|specs| - 1])
  }

  // --- the reverse order is the mirror ---------------------------------------

  ghost predicate AllCreate(ops: seq<Op>) {
    forall i :: 0 <= i < |ops| ==> Creates(ops[i])
  }

  lemma {:induction false} IndexOpsCreate(spec: TableSpec, n: nat)
    requires n <= |spec.indexes|
    ensures AllCreate(IndexOps(spec, n))
  {
    if n > 0 {
      IndexOpsCreate(spec, n - 1);
    }
  }

  lemma {:induction false} UpCreates(specs: seq<TableSpec>, shapes: Shapes)
    requires Fitting(specs, shapes)
    ensures AllCreate(Up(specs, shapes))
  {
    if |specs| > 0 {
      var last := |specs| - 1;
      UpCreates(specs[..last], shapes);
      IndexOpsCreate(specs[last], |specs[last].indexes|);
    }
  }

  lemma MirrorOfOne(op: Op)
    requires Creates(op)
    ensures Mirror([op]) == [Inverse(op)]
  {
    assert [op][1..] == [];
  }

  lemma {:induction false} MirrorOfIndexOps(spec: TableSpec, n: nat)
    requires n <= |spec.indexes| && AllCreate(IndexOps(spec, n))
    ensures Mirror(IndexOps(spec, n)) == IndexDrops(spec, n)
  {
    if n > 0 {
      var i := spec.indexes[n - 1];
      var op := CreateIndex(i.name, spec.table, i.columns, i.unique);
      IndexOpsCreate(spec, n - 1);
      MirrorOfIndexOps(spec, n - 1);
      MirrorConcat(IndexOps(spec, n - 1), [op]);
      MirrorOfOne(op);
    }
  }

  lemma {:induction false} DownMirrorsUp(specs: seq<TableSpec>, shapes: Shapes)
    requires Fitting(specs, shapes) && AllCreate(Up(specs, shapes))
    ensures Mirror(Up(specs, shapes)) == Down(specs)
  {
    if |specs| > 0 {
      var last := |specs| - 1;
      var spec := specs[last];
      var create := CreateTable(spec.table, shapes[spec.table]);
      var indexes := IndexOps(spec, |spec.indexes|);
      UpCreates(specs[..last], shapes);
      DownMirrorsUp(specs[..last], shapes);
      IndexOpsCreate(spec, |spec.indexes|);
      MirrorConcat(Up(specs[..last], shapes), [create] + indexes);
      MirrorConcat([create], indexes);
      MirrorOfIndexOps(spec, |spec.indexes|);
      MirrorOfOne(create);
    }
  }

  /** Wherever the tables can be created, dropping them restores what was there. */
  lemma DownUndoesUp(db: Database, specs: seq<TableSpec>, shapes: Shapes)
    requires WellFormed(db) && Fitting(specs, shapes) && Migrate(db, Up(specs, shapes)).Some?
    ensures Migrate(Migrate(db, Up(specs, shapes)).value, Down(specs)) == Some(db)
  {
    UpCreates(specs, shapes);
    DownMirrorsUp(specs, shapes);
    MirrorUndoes(db, Up(specs, shapes));
  }

  // --- where they can be created ---------------------------------------------

  /** A database that uses none of the names. */
  ghost predicate Unclaimed(db: Database, specs: seq<TableSpec>) {
    && (forall i :: 0 <= i < |specs| ==> specs[i].table !in db.tables)
    && (forall i, a :: 0 <= i < |specs| && 0 <= a < |specs[i].indexes| ==> specs[i].indexes[a].name !in db.indexes)
  }

  ghost predicate NamedBy(name: IndexName, spec: TableSpec, n: int)
    requires n <= |spec.indexes|
  {
    exists a :: 0 <= a < n && spec.indexes[a].name == name
  }

  ghost predicate NamedIn(specs: seq<TableSpec>, name: IndexName) {
    exists i :: 0 <= i < |specs| && NamedBy(name, specs[i], |specs[i].indexes|)
  }

  ghost predicate HasShape(spec: TableSpec, shapes: Shapes, tables: map<TableName, Table>) {
    spec.table in tables && spec.table in shapes && tables[spec.table] == shapes[spec.table]
  }

  ghost predicate Shaped(specs: seq<TableSpec>, shapes: Shapes, tables: map<TableName, Table>) {
    forall i :: 0 <= i < |specs| ==> HasShape(specs[i], shapes, tables)
  }

  /** An index as its list says. */
  ghost predicate HasIndex(spec: TableSpec, a: nat, indexes: map<IndexName, Index>)
    requires a < |spec.indexes|
  {
    var i := spec.indexes[a];
    i.name in indexes && indexes[i.name] == Index(spec.table, i.columns, i.unique)
  }

  ghost predicate Indexed(specs: seq<TableSpec>, indexes: map<IndexName, Index>) {
    forall i, a :: 0 <= i < |specs| && 0 <= a < |specs[i].indexes| ==> HasIndex(specs[i], a, indexes)
  }

  /** Exactly these tables and indexes have been added. */
  ghost predicate Built(db: Database, specs: seq<TableSpec>, shapes: Shapes, now: Database)
    requires Fitting(specs, shapes)
  {
    && WellFormed(now)
    && (forall t :: t in now.tables ==> t in db.tables || Earlier(specs, |specs|, t))
    && (forall n :: n in now.indexes ==> n in db.indexes || NamedIn(specs, n))
    && Shaped(specs, shapes, now.tables)
    && Indexed(specs, now.indexes)
  }

  lemma CreateIsAccepted(db: Database, specs: seq<TableSpec>, shapes: Shapes, now: Database)
    requires |specs| > 0 && Fitting(specs, shapes) && Orderly(specs) && Unclaimed(db, specs)
    requires Built(db, specs[..|specs| - 1], shapes, now)
    ensures var spec := specs[|specs| - 1]; Accepts(now, CreateTable(spec.table, shapes[spec.table]))
  {
    var last := |specs| - 1;
    var spec := specs[last];
    var shape := shapes[spec.table];
    assert ShapeFits(shapes, spec);
    NameIsFree(db, specs, now.tables);
    forall k | k in shape.foreign
      ensures KeyHolds(now.(tables := now.tables[spec.table := shape]), shape, shape.foreign[k])
    {
      TargetIsThere(specs, shapes, now.tables, shape.foreign[k].target);
    }
  }

  lemma NameIsFree(db: Database, specs: seq<TableSpec>, tables: map<TableName, Table>)
    requires |specs| > 0 && Orderly(specs) && Unclaimed(db, specs)
    requires forall t :: t in tables ==> t in db.tables || Earlier(specs[..|specs| - 1], |specs| - 1, t)
    ensures specs[|specs| - 1].table !in tables
  {}

  lemma TargetIsThere(specs: seq<TableSpec>, shapes: Shapes, tables: map<TableName, Table>, t: TableName)
    requires |specs| > 0 && Orderly(specs) && t in specs[|specs| - 1].targets
    requires Shaped(specs[..|specs| - 1], shapes, tables)
    ensures t in tables && t in shapes && tables[t] == shapes[t] && t != specs[|specs| - 1].table
  {
    var last := |specs| - 1;
    assert Earlier(specs, last, t);
    var j :| 0 <= j < last && specs[j].table == t;
    assert HasShape(specs[..last][j], shapes, tables);
  }

  lemma {:induction false} IndexesAreAccepted(made: Database, spec: TableSpec, shapes: Shapes, n: nat)
    requires n <= |spec.indexes| && ShapeFits(shapes, spec) && WellFormed(made)
    requires spec.table in made.tables && made.tables[spec.table] == shapes[spec.table]
    requires forall a :: 0 <= a < |spec.indexes| ==> spec.indexes[a].name !in made.indexes
    requires forall a, b :: 0 <= a < b < |spec.indexes| ==> spec.indexes[a].name != spec.indexes[b].name
    ensures var r := Migrate(made, IndexOps(spec, n));
            && r.Some? && WellFormed(r.value) && r.value.tables == made.tables
            && (forall i :: i in r.value.indexes ==> i in made.indexes || NamedBy(i, spec, n))
            && (forall i :: i in made.indexes ==> i in r.value.indexes && r.value.indexes[i] == made.indexes[i])
            && (forall a :: 0 <= a < n ==> HasIndex(spec, a, r.value.indexes))
  {
    if n > 0 {
      IndexesAreAccepted(made, spec, shapes, n - 1);
      var before := Migrate(made, IndexOps(spec, n - 1)).value;
      var i := spec.indexes[n - 1];
      var op := CreateIndex(i.name, spec.table, i.columns, i.unique);
      MigrateConcat(made, IndexOps(spec, n - 1), [op]);
      MigrateOne(before, op);
      PerformKeepsWellFormed(before, op);
      assert forall x :: NamedBy(x, spec, n - 1) ==> NamedBy(x, spec, n);
      assert NamedBy(i.name, spec, n);
      assert i.name !in before.indexes;
      forall a | 0 <= a < n ensures HasIndex(spec, a, Perform(before, op).indexes) {
        if a < n - 1 { assert HasIndex(spec, a, before.indexes); }
      }
    }
  }

  lemma MigrateOne(db: Database, op: Op)
    requires Accepts(db, op)
    ensures Migrate(db, [op]) == Some(Perform(db, op))
  {
    assert [op][1..] == [];
  }

  lemma OrderlyPrefix(specs: seq<TableSpec>, n: nat)
    requires Orderly(specs) && n <= |specs|
    ensures Orderly(specs[..n])
  {
    var first := specs[..n];
    forall i, t | 0 <= i < |first| && t in first[i].targets ensures Earlier(first, i, t) {
      assert Earlier(specs, i, t);
      var k :| 0 <= k < i && specs[k].table == t;
      assert first[k].table == t;
    }
  }

  /** Orderly tables can be created in any database that uses none of their names. */
  lemma {:induction false} UpApplies(db: Database, specs: seq<TableSpec>, shapes: Shapes)
    requires WellFormed(db) && Orderly(specs) && Unclaimed(db, specs) && Fitting(specs, shapes)
    ensures Migrate(db, Up(specs, shapes)).Some?
    ensures Built(db, specs, shapes, Migrate(db, Up(specs, shapes)).value)
  {
    if |specs| > 0 {
      var last := |specs| - 1;
      var spec := specs[last];
      OrderlyPrefix(specs, last);
      UpApplies(db, specs[..last], shapes);
      var now := Migrate(db, Up(specs[..last], shapes)).value;
      var create := CreateTable(spec.table, shapes[spec.table]);
      CreateIsAccepted(db, specs, shapes, now);
      var made := Perform(now, create);
      PerformKeepsWellFormed(now, create);
      NamesStillFree(db, specs, shapes, now);
      IndexesAreAccepted(made, spec, shapes, |spec.indexes|);
      var indexes := IndexOps(spec, |spec.indexes|);
      MigrateConcat(db, Up(specs[..last], shapes), [create] + indexes);
      MigrateConcat(now, [create], indexes);
      MigrateOne(now, create);
      BuiltOneMore(db, specs, shapes, now, Migrate(made, indexes).value);
    }
  }

  lemma NamesStillFree(db: Database, specs: seq<TableSpec>, shapes: Shapes, now: Database)
    requires |specs| > 0 && Orderly(specs) && Unclaimed(db, specs) && Fitting(specs, shapes)
    requires Built(db, specs[..|specs| - 1], shapes, now)
    ensures var spec := specs[|specs| - 1];
            forall a :: 0 <= a < |spec.indexes| ==> spec.indexes[a].name !in now.indexes
  {
    var spec := specs[|specs| - 1];
    forall a | 0 <= a < |spec.indexes| ensures spec.indexes[a].name !in now.indexes {}
  }

  lemma BuiltOneMore(db: Database, specs: seq<TableSpec>, shapes: Shapes, now: Database, r: Database)
    requires |specs| > 0 && Fitting(specs, shapes) && Orderly(specs) && WellFormed(r)
    requires Built(db, specs[..|specs| - 1], shapes, now)
    requires var spec := specs[|specs| - 1];
             && r.tables == now.tables[spec.table := shapes[spec.table]]
             && (forall n :: n in r.indexes ==> n in now.indexes || NamedBy(n, spec, |spec.indexes|))
             && (forall n :: n in now.indexes ==> n in r.indexes && r.indexes[n] == now.indexes[n])
             && (forall a :: 0 <= a < |spec.indexes| ==> HasIndex(spec, a, r.indexes))
    ensures Built(db, specs, shapes, r)
  {
    BuiltTables(db, specs, now.tables, r.tables);
    BuiltIndexes(db, specs, now, r);
    BuiltShapes(specs, shapes, now.tables, r.tables);
    BuiltListed(specs, specs[|specs| - 1], now.indexes, r.indexes);
  }

  lemma BuiltListed(specs: seq<TableSpec>, spec: TableSpec, now: map<IndexName, Index>, r: map<IndexName, Index>)
    requires |specs| > 0 && spec == specs[|specs| - 1] && Indexed(specs[..|specs| - 1], now)
    requires forall n :: n in now ==> n in r && r[n] == now[n]
    requires forall a :: 0 <= a < |spec.indexes| ==> HasIndex(spec, a, r)
    ensures Indexed(specs, r)
  {
    forall i, a | 0 <= i < |specs| && 0 <= a < |specs[i].indexes| ensures HasIndex(specs[i], a, r) {
      if i < |specs| - 1 { assert HasIndex(specs[..|specs| - 1][i], a, now); }
    }
  }

  lemma BuiltTables(db: Database, specs: seq<TableSpec>, now: map<TableName, Table>, r: map<TableName, Table>)
    requires |specs| > 0
    requires forall t :: t in now ==> t in db.tables || Earlier(specs[..|specs| - 1], |specs| - 1, t)
    requires forall t :: t in r ==> t in now || t == specs[|specs| - 1].table
    ensures forall t :: t in r ==> t in db.tables || Earlier(specs, |specs|, t)
  {
    forall t | t in r ensures t in db.tables || Earlier(specs, |specs|, t) {
      if t == specs[|specs| - 1].table {
        assert Earlier(specs, |specs|, t);
      } else if t !in db.tables {
        EarlierStill(specs, t);
      }
    }
  }

  lemma BuiltIndexes(db: Database, specs: seq<TableSpec>, now: Database, r: Database)
    requires |specs| > 0
    requires forall n :: n in now.indexes ==> n in db.indexes || NamedIn(specs[..|specs| - 1], n)
    requires forall n :: n in r.indexes ==>
               n in now.indexes || NamedBy(n, specs[|specs| - 1], |specs[|specs| - 1].indexes|)
    ensures forall n :: n in r.indexes ==> n in db.indexes || NamedIn(specs, n)
  {
    var last := |specs| - 1;
    forall n | n in r.indexes && n !in db.indexes ensures NamedIn(specs, n) {
      if n in now.indexes {
        var i :| 0 <= i < last && NamedBy(n, specs[..last][i], |specs[..last][i].indexes|);
        assert NamedBy(n, specs[i], |specs[i].indexes|);
      } else {
        assert NamedBy(n, specs[last], |specs[last].indexes|);
      }
    }
  }

  lemma BuiltShapes(specs: seq<TableSpec>, shapes: Shapes, now: map<TableName, Table>, r: map<TableName, Table>)
    requires |specs| > 0 && specs[|specs| - 1].table in shapes
    requires r == now[specs[|specs| - 1].table := shapes[specs[|specs| - 1].table]]
    requires Shaped(specs[..|specs| - 1], shapes, now)
    ensures Shaped(specs, shapes, r)
  {
    forall i | 0 <= i < |specs| ensures HasShape(specs[i], shapes, r) {
      if i < |specs| - 1 { assert specs[..|specs| - 1][i] == specs[i]; }
    }
  }

  lemma EarlierStill(specs: seq<TableSpec>, t: TableName)
    requires |specs| > 0 && Earlier(specs[..|specs| - 1], |specs| - 1, t)
    ensures Earlier(specs, |specs|, t)
  {
    var k :| 0 <= k < |specs| - 1 && specs[..|specs| - 1][k].table == t;
    assert specs[k].table == t;
  }
}
