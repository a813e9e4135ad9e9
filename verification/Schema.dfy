/** A database schema and the operations a migration performs on it, as PostgreSQL carries them out. */
module Schema {
  import opened Options

  /** The tables the modelled revisions name; any other table a database holds is an `Other`. */
  datatype TableName =
    | AiProviders | Assets | AuditLogs | KnowledgeBase | PromptTemplates | SchedulerJobs
    | SystemConfiguration | Users | AiConversations | AnalysisResults | FeatureSnapshots
    | FundamentalMetrics | HistoricalPrices | JobQueue | KnowledgeChunks | Notifications
    | Portfolios | ProviderIngestionRuns | TechnicalIndicators | TickerNewsSchedules | Watchlists
    | AiMessages | NewsItems | PortfolioAnalysis | PortfolioHoldings | Recommendations
    | RiskAssessments | WatchlistItems | InvestmentJournal | NewsEmbeddings | SentimentScores
    | IssuerAgenda | SharedItems | NewsSources
    | Other(name: string)

  /** `ix_<table>_<column>`, or a name chosen by hand. */
  datatype IndexName = Auto(table: TableName, column: string) | Named(name: string)

  datatype Column = Column(kind: string, nullable: bool, default: Option<string>)

  datatype ForeignKey = ForeignKey(columns: seq<string>, target: TableName, targets: seq<string>, onDelete: string)

  datatype Table = Table(
    columns: map<string, Column>,
    uniques: map<string, seq<string>>,
    foreign: map<string, ForeignKey>)

  datatype Index = Index(table: TableName, columns: seq<string>, unique: bool)

  datatype Database = Database(tables: map<TableName, Table>, indexes: map<IndexName, Index>)

  datatype Op =
    | CreateTable(table: TableName, shape: Table)
    | DropTable(table: TableName)
    | AddColumn(table: TableName, column: string, definition: Column)
    | DropColumn(table: TableName, column: string)
    | CreateIndex(index: IndexName, table: TableName, columns: seq<string>, unique: bool)
    | DropIndex(index: IndexName)
    | CreateUnique(constraint: string, table: TableName, columns: seq<string>)
    | CreateForeignKey(constraint: string, table: TableName, key: ForeignKey)
    | DropConstraint(constraint: string, table: TableName)
    | SetDefault(table: TableName, column: string, default: Option<string>)

  // --- well-formed databases -------------------------------------------------

  predicate Covered(columns: seq<string>, table: Table) {
    forall c :: c in columns ==> c in table.columns
  }

  /** A foreign key's columns exist on both sides. */
  predicate KeyHolds(db: Database, table: Table, key: ForeignKey) {
    Covered(key.columns, table) && key.target in db.tables && Covered(key.targets, db.tables[key.target])
  }

  predicate TableHolds(db: Database, table: Table) {
    && (forall u :: u in table.uniques ==> Covered(table.uniques[u], table))
    && (forall k :: k in table.foreign ==> KeyHolds(db, table, table.foreign[k]))
  }

  predicate IndexHolds(db: Database, index: Index) {
    index.table in db.tables && Covered(index.columns, db.tables[index.table])
  }

  /** No constraint, index or foreign key dangles. */
  predicate WellFormed(db: Database) {
    && (forall t :: t in db.tables ==> TableHolds(db, db.tables[t]))
    && (forall i :: i in db.indexes ==> IndexHolds(db, db.indexes[i]))
  }

  // --- operations ------------------------------------------------------------

  predicate ConstraintFree(table: Table, constraint: string) {
    constraint !in table.uniques && constraint !in table.foreign
  }

  /** Some other table has a foreign key to this one. */
  predicate Referenced(db: Database, table: TableName) {
    exists t, k :: t in db.tables && t != table && k in db.tables[t].foreign &&
                   db.tables[t].foreign[k].target == table
  }

  /** Some other table has a foreign key to this column. */
  predicate ColumnReferenced(db: Database, table: TableName, column: string) {
    exists t, k :: t in db.tables && t != table && k in db.tables[t].foreign &&
                   db.tables[t].foreign[k].target == table && column in db.tables[t].foreign[k].targets
  }

  predicate KeyInvolves(key: ForeignKey, table: TableName, column: string) {
    column in key.columns || (key.target == table && column in key.targets)
  }

  /** A table less one column, and less its own constraints that involve it. */
  function WithoutColumn(table: Table, name: TableName, column: string): Table {
    Table(
      table.columns - {column},
      map u | u in table.uniques && column !in table.uniques[u] :: table.uniques[u],
      map k | k in table.foreign && !KeyInvolves(table.foreign[k], name, column) :: table.foreign[k])
  }

  function IndexesExcept(db: Database, table: TableName): map<IndexName, Index> {
    map i | i in db.indexes && db.indexes[i].table != table :: db.indexes[i]
  }

  function IndexesWithoutColumn(db: Database, table: TableName, column: string): map<IndexName, Index> {
    map i | i in db.indexes && !(db.indexes[i].table == table && column in db.indexes[i].columns)
      :: db.indexes[i]
  }

  /** Whether the database accepts the operation. */
  predicate Accepts(db: Database, op: Op) {
    match op
    case CreateTable(t, shape) => t !in db.tables && TableHolds(db.(tables := db.tables[t := shape]), shape)
    case DropTable(t) => t in db.tables && !Referenced(db, t)
    case AddColumn(t, c, _) => t in db.tables && c !in db.tables[t].columns
    case DropColumn(t, c) => t in db.tables && c in db.tables[t].columns && !ColumnReferenced(db, t, c)
    case CreateIndex(i, t, columns, _) =>
      i !in db.indexes && t in db.tables && Covered(columns, db.tables[t])
    case DropIndex(i) => i in db.indexes
    case CreateUnique(n, t, columns) =>
      t in db.tables && ConstraintFree(db.tables[t], n) && Covered(columns, db.tables[t])
    case CreateForeignKey(n, t, key) =>
      t in db.tables && ConstraintFree(db.tables[t], n) && KeyHolds(db, db.tables[t], key)
    case DropConstraint(n, t) => t in db.tables && !ConstraintFree(db.tables[t], n)
    case SetDefault(t, c, _) => t in db.tables && c in db.tables[t].columns
  }

  function Put(db: Database, t: TableName, table: Table): Database {
    db.(tables := db.tables[t := table])
  }

  function Perform(db: Database, op: Op): Database
    requires Accepts(db, op)
  {
    match op
    case CreateTable(t, shape) => Put(db, t, shape)
    case DropTable(t) => Database(db.tables - {t}, IndexesExcept(db, t))
    case AddColumn(t, c, definition) =>
      Put(db, t, db.tables[t].(columns := db.tables[t].columns[c := definition]))
    case DropColumn(t, c) =>
      Database(db.tables[t := WithoutColumn(db.tables[t], t, c)], IndexesWithoutColumn(db, t, c))
    case CreateIndex(i, t, columns, unique) => db.(indexes := db.indexes[i := Index(t, columns, unique)])
    case DropIndex(i) => db.(indexes := db.indexes - {i})
    case CreateUnique(n, t, columns) =>
      Put(db, t, db.tables[t].(uniques := db.tables[t].uniques[n := columns]))
    case CreateForeignKey(n, t, key) =>
      Put(db, t, db.tables[t].(foreign := db.tables[t].foreign[n := key]))
    case DropConstraint(n, t) =>
      Put(db, t, db.tables[t].(uniques := db.tables[t].uniques - {n}, foreign := db.tables[t].foreign - {n}))
    case SetDefault(t, c, default) =>
      var column := db.tables[t].columns[c].(default := default);
      Put(db, t, db.tables[t].(columns := db.tables[t].columns[c := column]))
  }

  /** The database after a migration, or nothing when some step is refused. */
  function Migrate(db: Database, ops: seq<Op>): Option<Database>
    decreases |ops|
  {
    if |ops| == 0 then Some(db)
    else if Accepts(db, ops[0]) then Migrate(Perform(db, ops[0]), ops[1..])
    else None
  }

  lemma {:induction false} MigrateConcat(db: Database, a: seq<Op>, b: seq<Op>)
    ensures Migrate(db, a + b) ==
            if Migrate(db, a).Some? then Migrate(Migrate(db, a).value, b) else None
    decreases |a|
  {
    if |a| == 0 {
      assert a + b == b;
    } else {
      assert (a + b)[1..] == a[1..] + b;
      if Accepts(db, a[0]) {
        MigrateConcat(Perform(db, a[0]), a[1..], b);
      }
    }
  }

  // --- nothing ever dangles --------------------------------------------------

  /** Every accepted operation leaves no dangling reference, dropping a table included. */
  lemma PerformKeepsWellFormed(db: Database, op: Op)
    requires WellFormed(db) && Accepts(db, op)
    ensures WellFormed(Perform(db, op))
  {
    if op.DropTable? {
      DropTableKeepsWellFormed(db, op.table);
    } else if op.DropColumn? {
      DropColumnKeepsWellFormed(db, op.table, op.column);
    } else {
      var after := Perform(db, op);
      forall t | t in after.tables ensures TableHolds(after, after.tables[t]) {
        if t in db.tables { assert TableHolds(db, db.tables[t]); }
      }
      forall i | i in after.indexes ensures IndexHolds(after, after.indexes[i]) {
        if i in db.indexes { assert IndexHolds(db, db.indexes[i]); }
      }
    }
  }

  lemma DropTableKeepsWellFormed(db: Database, t: TableName)
    requires WellFormed(db) && Accepts(db, DropTable(t))
    ensures WellFormed(Perform(db, DropTable(t)))
  {
    var after := Perform(db, DropTable(t));
    forall s | s in after.tables ensures TableHolds(after, after.tables[s]) {
      assert TableHolds(db, db.tables[s]);
    }
    forall i | i in after.indexes ensures IndexHolds(after, after.indexes[i]) {
      assert IndexHolds(db, db.indexes[i]);
    }
  }

  lemma DropColumnKeepsWellFormed(db: Database, t: TableName, c: string)
    requires WellFormed(db) && Accepts(db, DropColumn(t, c))
    ensures WellFormed(Perform(db, DropColumn(t, c)))
  {
    var after := Perform(db, DropColumn(t, c));
    forall s | s in after.tables ensures TableHolds(after, after.tables[s]) {
      assert TableHolds(db, db.tables[s]);
    }
    forall i | i in after.indexes ensures IndexHolds(after, after.indexes[i]) {
      assert IndexHolds(db, db.indexes[i]);
    }
  }

  lemma {:induction false} MigrateKeepsWellFormed(db: Database, ops: seq<Op>)
    requires WellFormed(db) && Migrate(db, ops).Some?
    ensures WellFormed(Migrate(db, ops).value)
    decreases |ops|
  {
    if |ops| > 0 {
      PerformKeepsWellFormed(db, ops[0]);
      MigrateKeepsWellFormed(Perform(db, ops[0]), ops[1..]);
    }
  }

  // --- undoing ---------------------------------------------------------------

  predicate Creates(op: Op) {
    op.CreateTable? || op.AddColumn? || op.CreateIndex? || op.CreateUnique? || op.CreateForeignKey?
  }

  function Inverse(op: Op): Op
    requires Creates(op)
  {
    match op
    case CreateTable(t, _) => DropTable(t)
    case AddColumn(t, c, _) => DropColumn(t, c)
    case CreateIndex(i, _, _, _) => DropIndex(i)
    case CreateUnique(n, t, _) => DropConstraint(n, t)
    case CreateForeignKey(n, t, _) => DropConstraint(n, t)
  }

  /** The inverse steps, last first. */
  function Mirror(ops: seq<Op>): seq<Op>
    requires forall i :: 0 <= i < |ops| ==> Creates(ops[i])
  {
    if |ops| == 0 then [] else Mirror(ops[1..]) + [Inverse(ops[0])]
  }

  lemma UndoCreateTable(db: Database, op: Op)
    requires op.CreateTable? && WellFormed(db) && Accepts(db, op)
    ensures Accepts(Perform(db, op), Inverse(op))
    ensures Perform(Perform(db, op), Inverse(op)) == db
  {
    var after := Perform(db, op);
    forall t, k | t in after.tables && t != op.table && k in after.tables[t].foreign
      ensures after.tables[t].foreign[k].target != op.table
    {
      assert TableHolds(db, db.tables[t]);
      assert KeyHolds(db, db.tables[t], db.tables[t].foreign[k]);
    }
    assert after.tables - {op.table} == db.tables;
    forall i | i in db.indexes ensures db.indexes[i].table != op.table {
      assert IndexHolds(db, db.indexes[i]);
    }
    assert IndexesExcept(after, op.table) == db.indexes;
  }

  lemma UndoAddColumn(db: Database, op: Op)
    requires op.AddColumn? && WellFormed(db) && Accepts(db, op)
    ensures Accepts(Perform(db, op), Inverse(op))
    ensures Perform(Perform(db, op), Inverse(op)) == db
  {
    var after := Perform(db, op);
    var t, c := op.table, op.column;
    var table := db.tables[t];
    forall s, k | s in after.tables && s != t && k in after.tables[s].foreign &&
                  after.tables[s].foreign[k].target == t
      ensures c !in after.tables[s].foreign[k].targets
    {
      assert TableHolds(db, db.tables[s]);
      assert KeyHolds(db, db.tables[s], db.tables[s].foreign[k]);
    }
    assert TableHolds(db, table);
    var back := WithoutColumn(after.tables[t], t, c);
    assert back.columns == table.columns;
    forall u | u in table.uniques ensures c !in table.uniques[u] {
      assert Covered(table.uniques[u], table);
    }
    assert back.uniques == table.uniques;
    forall k | k in table.foreign ensures !KeyInvolves(table.foreign[k], t, c) {
      assert KeyHolds(db, table, table.foreign[k]);
    }
    assert back.foreign == table.foreign;
    forall i | i in db.indexes ensures !(db.indexes[i].table == t && c in db.indexes[i].columns) {
      assert IndexHolds(db, db.indexes[i]);
    }
    assert IndexesWithoutColumn(after, t, c) == db.indexes;
    assert after.tables[t := back] == db.tables;
  }

  /** A creating step is undone exactly by its inverse, on any database that takes it. */
  lemma UndoOne(db: Database, op: Op)
    requires Creates(op) && WellFormed(db) && Accepts(db, op)
    ensures Accepts(Perform(db, op), Inverse(op))
    ensures Perform(Perform(db, op), Inverse(op)) == db
  {
    var after := Perform(db, op);
    match op {
      case CreateTable(_, _) => UndoCreateTable(db, op);
      case AddColumn(_, _, _) => UndoAddColumn(db, op);
      case CreateIndex(i, _, _, _) => assert after.indexes - {i} == db.indexes;
      case CreateUnique(n, t, _) =>
        assert after.tables[t].uniques - {n} == db.tables[t].uniques;
        assert after.tables[t].foreign - {n} == db.tables[t].foreign;
        assert Perform(after, Inverse(op)).tables == db.tables;
      case CreateForeignKey(n, t, _) =>
        assert after.tables[t].uniques - {n} == db.tables[t].uniques;
        assert after.tables[t].foreign - {n} == db.tables[t].foreign;
        assert Perform(after, Inverse(op)).tables == db.tables;
    }
  }

  /** A mirrored downgrade is accepted after its upgrade and restores the database it started from. */
  lemma {:induction false} MirrorUndoes(db: Database, ops: seq<Op>)
    requires forall i :: 0 <= i < |ops| ==> Creates(ops[i])
    requires WellFormed(db) && Migrate(db, ops).Some?
    ensures Migrate(Migrate(db, ops).value, Mirror(ops)) == Some(db)
    decreases |ops|
  {
    if |ops| > 0 {
      var next := Perform(db, ops[0]);
      PerformKeepsWellFormed(db, ops[0]);
      MirrorUndoes(next, ops[1..]);
      MigrateConcat(Migrate(db, ops).value, Mirror(ops[1..]), [Inverse(ops[0])]);
      UndoOne(db, ops[0]);
      assert Migrate(next, [Inverse(ops[0])]) == Migrate(db, []);
    }
  }

  lemma {:induction false} MirrorConcat(a: seq<Op>, b: seq<Op>)
    requires forall i :: 0 <= i < |a| ==> Creates(a[i])
    requires forall i :: 0 <= i < |b| ==> Creates(b[i])
    ensures Mirror(a + b) == Mirror(b) + Mirror(a)
  {
    if |a| == 0 {
      assert a + b == b;
    } else {
      assert (a + b)[1..] == a[1..] + b;
      MirrorConcat(a[1..], b);
    }
  }

  /** Indexes built on one table after the rest of a database. */
  predicate IndexesOn(ops: seq<Op>, table: TableName) {
    forall i :: 0 <= i < |ops| ==> ops[i].CreateIndex? && ops[i].table == table
  }

  lemma {:induction false} IndexesGoWithTheirTable(db: Database, ops: seq<Op>, table: TableName)
    requires IndexesOn(ops, table) && Migrate(db, ops).Some?
    ensures Migrate(db, ops).value.tables == db.tables
    ensures IndexesExcept(Migrate(db, ops).value, table) == IndexesExcept(db, table)
    decreases |ops|
  {
    if |ops| > 0 {
      var next := Perform(db, ops[0]);
      assert IndexesExcept(next, table) == IndexesExcept(db, table);
      IndexesGoWithTheirTable(next, ops[1..], table);
    }
  }

  /** Dropping a new table undoes its creation and all the indexes since built on it. */
  lemma DropUndoesTableAndIndexes(db: Database, create: Op, indexes: seq<Op>)
    requires create.CreateTable? && IndexesOn(indexes, create.table) && WellFormed(db)
    requires Migrate(db, [create] + indexes).Some?
    ensures Migrate(Migrate(db, [create] + indexes).value, [DropTable(create.table)]) == Some(db)
  {
    MigrateConcat(db, [create], indexes);
    var made := Perform(db, create);
    assert Migrate(db, [create]) == Migrate(made, []);
    IndexesGoWithTheirTable(made, indexes, create.table);
    UndoCreateTable(db, create);
    var t := Migrate(made, indexes).value;
    var back := Perform(t, DropTable(create.table));
    assert back == Perform(made, DropTable(create.table));
    assert Migrate(t, [DropTable(create.table)]) == Migrate(back, []);
  }

  /** A connection migrations run on: all the steps of a run share one transaction, rolled back when one is refused. */
  class Connection {
    var db: Database

    constructor (db: Database)
      ensures this.db == db
    {
      this.db := db;
    }

    method Execute(ops: seq<Op>) returns (ok: bool)
      modifies this
      ensures ok <==> Migrate(old(db), ops).Some?
      ensures db == if ok then Migrate(old(db), ops).value else old(db)
    {
      var before := db;
      for i := 0 to |ops|
        invariant before == old(db)
        invariant Migrate(before, ops) == Migrate(db, ops[i..])
      {
        if !Accepts(db, ops[i]) {
          db := before;
          return false;
        }
        db := Perform(db, ops[i]);
        assert ops[i..][1..] == ops[i + 1..];
      }
      ok := true;
    }
  }
}
