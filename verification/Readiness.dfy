/** Which databases the later revisions apply to: the guards their steps add up to. */
module Readiness {
  import opened Options
  import opened Schema
  import opened TableCreation
  import opened Revisions

  predicate HasColumn(db: Database, t: TableName, c: string) {
    t in db.tables && c in db.tables[t].columns
  }

  predicate NoneTaken(names: seq<IndexName>, db: Database) {
    forall n :: n in names ==> n !in db.indexes
  }

  // --- single steps and batches ----------------------------------------------

  lemma MigrateOneIff(db: Database, op: Op)
    ensures Migrate(db, [op]) == if Accepts(db, op) then Some(Perform(db, op)) else None
  {
    if Accepts(db, op) {
      MigrateOne(db, op);
    }
  }

  /** A table with a foreign key is created only where the key's target is. */
  lemma NeedsTarget(db: Database, t: TableName, shape: Table, k: string, c: string)
    requires k in shape.foreign && shape.foreign[k].target != t && c in shape.foreign[k].targets
    ensures Accepts(db, CreateTable(t, shape)) ==> HasColumn(db, shape.foreign[k].target, c)
  {
    var after := db.(tables := db.tables[t := shape]);
    if TableHolds(after, shape) {
      assert KeyHolds(after, shape, shape.foreign[k]);
    }
  }

  /** Stages apply together exactly when each applies to what the earlier ones leave. */
  lemma Stages(db: Database, a: seq<Op>, b: seq<Op>, c: seq<Op>)
    ensures Migrate(db, a + b + c).Some? <==>
            && Migrate(db, a).Some?
            && Migrate(Migrate(db, a).value, b).Some?
            && Migrate(Migrate(Migrate(db, a).value, b).value, c).Some?
    ensures Migrate(db, a + b + c).Some? ==>
              Migrate(db, a + b + c) == Migrate(Migrate(Migrate(db, a).value, b).value, c)
  {
    MigrateConcat(db, a + b, c);
    MigrateConcat(db, a, b);
  }

  /** Indexes created on one table, of columns it has, under different names. */
  ghost predicate Batch(ops: seq<Op>, t: TableName, shape: Table) {
    && IndexesOn(ops, t)
    && (forall i :: 0 <= i < |ops| ==> Covered(ops[i].columns, shape))
    && (forall i, j :: 0 <= i < j < |ops| ==> ops[i].index != ops[j].index)
  }

  function Names(ops: seq<Op>): seq<IndexName>
    requires forall i :: 0 <= i < |ops| ==> ops[i].CreateIndex?
  {
    seq(|ops|, i requires 0 <= i < |ops| => ops[i].index)
  }

  lemma {:induction false} BatchApplies(db: Database, ops: seq<Op>, t: TableName)
    requires t in db.tables && Batch(ops, t, db.tables[t])
    ensures Migrate(db, ops).Some? <==> NoneTaken(Names(ops), db)
    ensures Migrate(db, ops).Some? ==>
              && Migrate(db, ops).value.tables == db.tables
              && forall n :: n in Migrate(db, ops).value.indexes <==> n in db.indexes || n in Names(ops)
    decreases |ops|
  {
    if |ops| > 0 {
      var rest := ops[1..];
      assert Names(ops) == [ops[0].index] + Names(rest);
      if Accepts(db, ops[0]) {
        var next := Perform(db, ops[0]);
        BatchApplies(next, rest, t);
        assert ops[0].index !in Names(rest) by {
          assert forall i :: 0 <= i < |rest| ==> rest[i] == ops[i + 1];
        }
        assert next.indexes.Keys == db.indexes.Keys + {ops[0].index};
      }
    }
  }

  lemma TableApplies(db: Database, create: Op, ops: seq<Op>)
    requires create.CreateTable? && Batch(ops, create.table, create.shape)
    ensures Migrate(db, [create] + ops).Some? <==> Accepts(db, create) && NoneTaken(Names(ops), db)
    ensures Migrate(db, [create] + ops).Some? ==>
              var made := Migrate(db, [create] + ops).value;
              && made.tables == db.tables[create.table := create.shape]
              && forall n :: n in made.indexes <==> n in db.indexes || n in Names(ops)
  {
    MigrateConcat(db, [create], ops);
    MigrateOneIff(db, create);
    if Accepts(db, create) {
      BatchApplies(Perform(db, create), ops, create.table);
    }
  }

  lemma {:induction false} WithColumnsHas(table: map<string, Column>, columns: seq<(string, Column)>, c: string)
    ensures c in WithColumns(table, columns) <==> c in table || c in Reversed(columns)
    decreases |columns|
  {
    if |columns| > 0 {
      WithColumnsHas(table[columns[0].0 := columns[0].1], columns[1..], c);
    }
  }

  lemma {:induction false} ReversedHas(columns: seq<(string, Column)>, c: string)
    ensures c in Reversed(columns) <==> exists i :: 0 <= i < |columns| && columns[i].0 == c
  {
    if |columns| > 0 {
      ReversedHas(columns[1..], c);
      if i :| 0 <= i < |columns| && columns[i].0 == c {
        if i > 0 { assert columns[1..][i - 1].0 == c; }
      }
    }
  }

  // --- 371022dfaa5b ----------------------------------------------------------

  /** A queue table with a status, and none of the names the revision introduces. */
  ghost predicate JobQueueReady(db: Database) {
    && HasColumn(db, JobQueue, "status")
    && (forall c :: c in JOB_COLUMNS_DOWN ==> c !in db.tables[JobQueue].columns)
    && Named("ix_job_claimable") !in db.indexes && Auto(JobQueue, "available_at") !in db.indexes
    && ConstraintFree(db.tables[JobQueue], DEDUP_CONSTRAINT)
  }

  lemma JobNamesDiffer()
    ensures forall i, j :: 0 <= i < j < |JobColumns()| ==> JobColumns()[i].0 != JobColumns()[j].0
    ensures "status" !in Reversed(JobColumns())
    ensures "available_at" in Reversed(JobColumns()) && "dedup_key" in Reversed(JobColumns())
  {
    JobColumnsReversed();
    JobColumnsDiffer();
    assert "result"[0] == 'r' && "status"[0] == 's';
    assert JOB_COLUMNS_DOWN[5] == "available_at" && JOB_COLUMNS_DOWN[2] == "dedup_key";
  }

  lemma JobColumnsDiffer()
    ensures forall i, j :: 0 <= i < j < |JobColumns()| ==> JobColumns()[i].0 != JobColumns()[j].0
  {
    assert "locked_at"[7] == 'a' && "locked_by"[7] == 'b' && "result"[0] == 'r' && "status"[0] == 's';
    assert "dedup_key"[0] == 'd' && "locked_at"[0] == 'l' && "locked_by"[0] == 'l';
    assert "max_retries"[0] == 'm' && "finished_at"[0] == 'f';
  }

  lemma JobColumnsApply(db: Database)
    ensures var r := Migrate(db, AddColumns(JobQueue, JobColumns()));
            && (r.Some? <==> JobQueue in db.tables &&
                             forall c :: c in JOB_COLUMNS_DOWN ==> c !in db.tables[JobQueue].columns)
            && (r.Some? ==> r.value == Put(db, JobQueue, db.tables[JobQueue].(
                              columns := WithColumns(db.tables[JobQueue].columns, JobColumns()))))
  {
    var c := JobColumns();
    JobNamesDiffer();
    AddColumnsIs(db, JobQueue, c);
    JobColumnsReversed();
    forall i | 0 <= i < |c| ensures c[i].0 in JOB_COLUMNS_DOWN { ReversedHas(c, c[i].0); }
    forall n | n in JOB_COLUMNS_DOWN ensures exists i :: 0 <= i < |c| && c[i].0 == n { ReversedHas(c, n); }
  }

  /** The queue revision applies exactly to ready schemas, and its downgrade restores each of them. */
  lemma JobQueueThereAndBack(db: Database)
    requires WellFormed(db)
    ensures Migrate(db, JobQueueUp()).Some? <==> JobQueueReady(db)
    ensures JobQueueReady(db) ==> Migrate(Migrate(db, JobQueueUp()).value, JobQueueDown()) == Some(db)
  {
    var add := AddColumns(JobQueue, JobColumns());
    MigrateConcat(db, add, JobIndexes());
    JobColumnsApply(db);
    if Migrate(db, add).Some? {
      JobIndexesApply(db, Migrate(db, add).value);
    }
    if JobQueueReady(db) {
      JobQueueRoundTrip(db);
    }
  }

  lemma JobIndexesApply(db: Database, wide: Database)
    requires JobQueue in db.tables
    requires wide == Put(db, JobQueue, db.tables[JobQueue].(
                       columns := WithColumns(db.tables[JobQueue].columns, JobColumns())))
    ensures Migrate(wide, JobIndexes()).Some? <==>
            && HasColumn(db, JobQueue, "status")
            && Named("ix_job_claimable") !in db.indexes && Auto(JobQueue, "available_at") !in db.indexes
            && ConstraintFree(db.tables[JobQueue], DEDUP_CONSTRAINT)
  {
    var ops := JobIndexes();
    var had := db.tables[JobQueue].columns;
    JobColumnsCover(had);
    assert ops == [ops[0]] + [ops[1]] + [ops[2]];
    IndexesThenUnique(wide, ops[0], ops[1], ops[2]);
    JobIndexesCovered(WithColumns(had, JobColumns()), wide.tables[JobQueue]);
  }

  lemma JobIndexesCovered(has: map<string, Column>, table: Table)
    requires table.columns == has && "available_at" in has && "dedup_key" in has
    ensures Covered(["status", "available_at"], table) <==> "status" in has
    ensures Covered(["available_at"], table) && Covered(["dedup_key"], table)
  {
    assert ["status", "available_at"][0] == "status";
  }

  lemma JobColumnsCover(had: map<string, Column>)
    ensures var has := WithColumns(had, JobColumns());
            ("status" in has <==> "status" in had) && "available_at" in has && "dedup_key" in has
  {
    JobNamesDiffer();
    WithColumnsHas(had, JobColumns(), "status");
    WithColumnsHas(had, JobColumns(), "available_at");
    WithColumnsHas(had, JobColumns(), "dedup_key");
  }

  /** Two indexes and a unique constraint on one table. */
  lemma IndexesThenUnique(db: Database, one: Op, two: Op, unique: Op)
    requires one.CreateIndex? && two.CreateIndex? && unique.CreateUnique?
    requires one.table == two.table == unique.table && one.index != two.index && one.table in db.tables
    ensures Migrate(db, [one] + [two] + [unique]).Some? <==>
            var table := db.tables[one.table];
            && Covered(one.columns, table) && Covered(two.columns, table) && Covered(unique.columns, table)
            && one.index !in db.indexes && two.index !in db.indexes
            && ConstraintFree(table, unique.constraint)
    ensures Migrate(db, [one] + [two] + [unique]).Some? ==>
              var table := db.tables[one.table];
              Migrate(db, [one] + [two] + [unique]).value ==
              Database(db.tables[one.table := table.(uniques := table.uniques[unique.constraint := unique.columns])],
                       db.indexes[one.index := Index(one.table, one.columns, one.unique)]
                                 [two.index := Index(two.table, two.columns, two.unique)])
  {
    Stages(db, [one], [two], [unique]);
    MigrateOneIff(db, one);
    if Accepts(db, one) {
      var first := Perform(db, one);
      MigrateOneIff(first, two);
      if Accepts(first, two) {
        MigrateOneIff(Perform(first, two), unique);
      }
    }
  }

  // --- b4d1f8a2c907 ----------------------------------------------------------

  const OWNER_KEY := "fk_analysis_conversation"

  const AGENDA_NAMES := [
    Auto(IssuerAgenda, "ticker"), Auto(IssuerAgenda, "scheduled_for"), Named("ix_agenda_upcoming")]

  const SHARED_NAMES := [
    Auto(SharedItems, "owner_id"), Auto(SharedItems, "recipient_id"), Named("ix_share_recipient")]

  const OWNER_NAME := Auto(AnalysisResults, "conversation_id")

  /** Users and conversations to refer to, an analysis without an owner, and no new name taken. */
  ghost predicate CalendarReady(db: Database) {
    && HasColumn(db, Users, "id") && HasColumn(db, AiConversations, "id")
    && IssuerAgenda !in db.tables && SharedItems !in db.tables
    && OwnerReady(db)
    && NoneTaken(AGENDA_NAMES, db) && NoneTaken(SHARED_NAMES, db)
  }

  ghost predicate OwnerReady(db: Database) {
    && AnalysisResults in db.tables && HasColumn(db, AiConversations, "id")
    && "conversation_id" !in db.tables[AnalysisResults].columns
    && ConstraintFree(db.tables[AnalysisResults], OWNER_KEY)
    && OWNER_NAME !in db.indexes
  }

  lemma NamedIndexesDiffer()
    ensures "ix_agenda_upcoming" != "ix_share_recipient"
    ensures "ticker" != "scheduled_for" && "owner_id" != "recipient_id"
  {
    assert |"ticker"| == 6 && |"scheduled_for"| == 13 && |"owner_id"| == 8 && |"recipient_id"| == 12;
    assert "ix_agenda_upcoming"[3] == 'a' && "ix_share_recipient"[3] == 's';
  }

  lemma AgendaBatch()
    ensures Batch(AgendaIndexes(), IssuerAgenda, AgendaShape()) && Names(AgendaIndexes()) == AGENDA_NAMES
  {
    AgendaNames();
    AgendaColumnsCovered();
  }

  lemma AgendaNames()
    ensures Names(AgendaIndexes()) == AGENDA_NAMES
    ensures forall i, j :: 0 <= i < j < 3 ==> AgendaIndexes()[i].index != AgendaIndexes()[j].index
  {
    NamedIndexesDiffer();
    assert Names(AgendaIndexes())[0] == AGENDA_NAMES[0] && Names(AgendaIndexes())[1] == AGENDA_NAMES[1];
  }

  lemma AgendaColumnsCovered()
    ensures IndexesOn(AgendaIndexes(), IssuerAgenda)
    ensures forall i :: 0 <= i < 3 ==> Covered(AgendaIndexes()[i].columns, AgendaShape())
  {}

  lemma SharedBatch()
    ensures Batch(SharedIndexes(), SharedItems, SharedShape()) && Names(SharedIndexes()) == SHARED_NAMES
  {
    SharedNames();
    SharedColumnsCovered();
  }

  lemma SharedNames()
    ensures Names(SharedIndexes()) == SHARED_NAMES
    ensures forall i, j :: 0 <= i < j < 3 ==> SharedIndexes()[i].index != SharedIndexes()[j].index
  {
    NamedIndexesDiffer();
    assert Names(SharedIndexes())[0] == SHARED_NAMES[0] && Names(SharedIndexes())[1] == SHARED_NAMES[1];
  }

  lemma SharedColumnsCovered()
    ensures IndexesOn(SharedIndexes(), SharedItems)
    ensures forall i :: 0 <= i < 3 ==> Covered(SharedIndexes()[i].columns, SharedShape())
  {}

  lemma AgendaAccepted(db: Database)
    ensures Accepts(db, CreateTable(IssuerAgenda, AgendaShape())) <==> IssuerAgenda !in db.tables
  {}

  lemma SharedAccepted(db: Database)
    ensures Accepts(db, CreateTable(SharedItems, SharedShape())) <==>
            SharedItems !in db.tables && HasColumn(db, Users, "id")
  {
    var shape := SharedShape();
    assert "shared_items_owner_id_fkey" in shape.foreign;
    NeedsTarget(db, SharedItems, shape, "shared_items_owner_id_fkey", "id");
    SharedUniquesHold();
    SharedKeysHold(db);
  }

  lemma SharedUniquesHold()
    ensures forall u :: u in SharedShape().uniques ==> Covered(SharedShape().uniques[u], SharedShape())
  {}

  lemma SharedKeysHold(db: Database)
    ensures var shape := SharedShape();
            HasColumn(db, Users, "id") ==>
              forall k :: k in shape.foreign ==>
                KeyHolds(db.(tables := db.tables[SharedItems := shape]), shape, shape.foreign[k])
  {}

  lemma OwnerApplies(db: Database)
    ensures Migrate(db, OwnerUp()).Some? <==> OwnerReady(db)
  {
    var ops := OwnerUp();
    assert ops == [ops[0]] + [ops[1]] + [ops[2]];
    MigrateConcat(db, [ops[0]] + [ops[1]], [ops[2]]);
    MigrateConcat(db, [ops[0]], [ops[1]]);
    MigrateOneIff(db, ops[0]);
    if Accepts(db, ops[0]) {
      var wide := Perform(db, ops[0]);
      MigrateOneIff(wide, ops[1]);
      if Accepts(wide, ops[1]) {
        var indexed := Perform(wide, ops[1]);
        MigrateOneIff(indexed, ops[2]);
        OwnerKeyHolds(db, indexed);
      }
    }
  }

  lemma OwnerKeyHolds(db: Database, indexed: Database)
    requires AnalysisResults in db.tables
    requires indexed.tables == db.tables[AnalysisResults := db.tables[AnalysisResults].(
               columns := db.tables[AnalysisResults].columns["conversation_id" := Nullable(UUID)])]
    ensures Accepts(indexed, OwnerUp()[2]) <==>
            ConstraintFree(db.tables[AnalysisResults], OWNER_KEY) && HasColumn(db, AiConversations, "id")
  {
    assert OwnerUp()[2].key.targets[0] == "id";
  }

  /** The calendar revision applies exactly to ready schemas, and its downgrade restores each of them. */
  lemma CalendarThereAndBack(db: Database)
    requires WellFormed(db)
    ensures Migrate(db, CalendarUp()).Some? <==> CalendarReady(db)
    ensures CalendarReady(db) ==> Migrate(Migrate(db, CalendarUp()).value, CalendarDown()) == Some(db)
  {
    CalendarApplies(db);
    if CalendarReady(db) {
      CalendarRoundTrip(db);
    }
  }

  lemma CalendarApplies(db: Database)
    ensures Migrate(db, CalendarUp()).Some? <==> CalendarReady(db)
  {
    var a, b := AgendaUp(), SharedUp();
    assert CalendarUp() == a + b + OwnerUp();
    Stages(db, a, b, OwnerUp());
    AgendaApplies(db);
    if Migrate(db, a).Some? {
      var one := Migrate(db, a).value;
      SharedAppliesAfter(db, one);
      if Migrate(one, b).Some? {
        OwnerAppliesAfter(db, one, Migrate(one, b).value);
      }
    }
  }

  lemma SharedAppliesAfter(db: Database, one: Database)
    requires Grown(db, one, IssuerAgenda, AGENDA_NAMES)
    ensures Migrate(one, SharedUp()).Some? <==>
            SharedItems !in db.tables && HasColumn(db, Users, "id") && NoneTaken(SHARED_NAMES, db)
    ensures Migrate(one, SharedUp()).Some? ==> Grown(one, Migrate(one, SharedUp()).value, SharedItems, SHARED_NAMES)
  {
    SharedApplies(one);
    NamesApart();
    GrownElsewhere(db, one, IssuerAgenda, AGENDA_NAMES, SHARED_NAMES);
  }

  lemma OwnerAppliesAfter(db: Database, one: Database, two: Database)
    requires Grown(db, one, IssuerAgenda, AGENDA_NAMES) && Grown(one, two, SharedItems, SHARED_NAMES)
    ensures Migrate(two, OwnerUp()).Some? <==> OwnerReady(db)
  {
    NamesApart();
    OwnerStays(db, one, IssuerAgenda, AGENDA_NAMES);
    OwnerStays(one, two, SharedItems, SHARED_NAMES);
    OwnerApplies(two);
  }

  function AgendaUp(): seq<Op> {
    [CreateTable(IssuerAgenda, AgendaShape())] + AgendaIndexes()
  }

  function SharedUp(): seq<Op> {
    [CreateTable(SharedItems, SharedShape())] + SharedIndexes()
  }

  lemma AgendaApplies(db: Database)
    ensures Migrate(db, AgendaUp()).Some? <==> IssuerAgenda !in db.tables && NoneTaken(AGENDA_NAMES, db)
    ensures Migrate(db, AgendaUp()).Some? ==> Grown(db, Migrate(db, AgendaUp()).value, IssuerAgenda, AGENDA_NAMES)
  {
    AgendaBatch();
    AgendaAccepted(db);
    TableApplies(db, CreateTable(IssuerAgenda, AgendaShape()), AgendaIndexes());
  }

  lemma SharedApplies(db: Database)
    ensures Migrate(db, SharedUp()).Some? <==>
            SharedItems !in db.tables && HasColumn(db, Users, "id") && NoneTaken(SHARED_NAMES, db)
    ensures Migrate(db, SharedUp()).Some? ==> Grown(db, Migrate(db, SharedUp()).value, SharedItems, SHARED_NAMES)
  {
    SharedBatch();
    SharedAccepted(db);
    TableApplies(db, CreateTable(SharedItems, SharedShape()), SharedIndexes());
  }

  /** One more table, and these indexes. */
  ghost predicate Grown(db: Database, now: Database, t: TableName, names: seq<IndexName>) {
    && (forall s :: s in now.tables <==> s == t || s in db.tables)
    && (forall s :: s in db.tables && s != t ==> now.tables[s] == db.tables[s])
    && (forall n :: n in now.indexes <==> n in db.indexes || n in names)
  }

  /** What a new table and its indexes leave as it was. */
  lemma GrownElsewhere(db: Database, now: Database, t: TableName, names: seq<IndexName>, others: seq<IndexName>)
    requires Grown(db, now, t, names) && forall n :: n in others ==> n !in names
    ensures NoneTaken(others, now) <==> NoneTaken(others, db)
    ensures forall s, c :: s != t ==> (HasColumn(now, s, c) <==> HasColumn(db, s, c))
    ensures forall s :: s != t ==> (s in now.tables <==> s in db.tables)
  {
    forall n | n in others ensures n in now.indexes <==> n in db.indexes {
      assert n !in names;
    }
  }

  lemma NamesApart()
    ensures forall n :: n in SHARED_NAMES ==> n !in AGENDA_NAMES
    ensures forall n :: n in [OWNER_NAME] ==> n !in AGENDA_NAMES && n !in SHARED_NAMES
  {
    NamedIndexesDiffer();
  }

  lemma OwnerStays(db: Database, one: Database, t: TableName, names: seq<IndexName>)
    requires Grown(db, one, t, names) && t != AnalysisResults && t != AiConversations
    requires forall n :: n in [OWNER_NAME] ==> n !in names
    ensures OwnerReady(one) <==> OwnerReady(db)
  {
    GrownElsewhere(db, one, t, names, [OWNER_NAME]);
    assert NoneTaken([OWNER_NAME], db) <==> OWNER_NAME !in db.indexes by { assert OWNER_NAME in [OWNER_NAME]; }
    assert NoneTaken([OWNER_NAME], one) <==> OWNER_NAME !in one.indexes by { assert OWNER_NAME in [OWNER_NAME]; }
  }

  // --- c3f81a6e02b7 ----------------------------------------------------------

  const SOURCES_NAME := Auto(NewsSources, "asset_id")

  /** No status yet, a flag no other table refers to, and room for the table of sources. */
  ghost predicate AccountsReady(db: Database) {
    && StatusFree(db)
    && HasColumn(db, Users, FLAG) && !ColumnReferenced(db, Users, FLAG)
    && NewsSources !in db.tables && HasColumn(db, Assets, "id")
    && SOURCES_NAME !in IndexesWithoutColumn(db, Users, FLAG)
  }

  lemma SourcesBatch()
    ensures Batch(SourcesUp()[1..], NewsSources, SourcesShape()) && Names(SourcesUp()[1..]) == [SOURCES_NAME]
  {}

  lemma SourcesApply(db: Database)
    ensures Migrate(db, SourcesUp()).Some? <==>
            NewsSources !in db.tables && HasColumn(db, Assets, "id") && SOURCES_NAME !in db.indexes
  {
    var create := CreateTable(NewsSources, SourcesShape());
    SourcesBatch();
    assert SourcesUp() == [create] + SourcesUp()[1..];
    TableApplies(db, create, SourcesUp()[1..]);
    SourcesAccepted(db);
  }

  lemma SourcesAccepted(db: Database)
    ensures Accepts(db, CreateTable(NewsSources, SourcesShape())) <==>
            NewsSources !in db.tables && HasColumn(db, Assets, "id")
  {
    var shape := SourcesShape();
    NeedsTarget(db, NewsSources, shape, "news_sources_asset_id_fkey", "id");
    SourcesUniquesHold();
    SourcesKeysHold(db);
  }

  lemma SourcesUniquesHold()
    ensures forall u :: u in SourcesShape().uniques ==> Covered(SourcesShape().uniques[u], SourcesShape())
  {}

  lemma SourcesKeysHold(db: Database)
    ensures var shape := SourcesShape();
            HasColumn(db, Assets, "id") ==>
              forall k :: k in shape.foreign ==>
                KeyHolds(db.(tables := db.tables[NewsSources := shape]), shape, shape.foreign[k])
  {}

  lemma StatusedRefersAlike(db: Database)
    requires Users in db.tables
    ensures ColumnReferenced(Statused(db), Users, FLAG) <==> ColumnReferenced(db, Users, FLAG)
  {
    if ColumnReferenced(db, Users, FLAG) {
      ReferenceStays(db);
    }
    if ColumnReferenced(Statused(db), Users, FLAG) {
      var now := Statused(db).tables;
      var t, k :| t in now && t != Users && k in now[t].foreign &&
                  now[t].foreign[k].target == Users && FLAG in now[t].foreign[k].targets;
      assert now[t] == db.tables[t];
    }
  }

  lemma AccountsApply(db: Database)
    ensures Migrate(db, AccountsUp()).Some? <==> AccountsReady(db)
  {
    var drop := DropColumn(Users, FLAG);
    Stages(db, StatusUp(), [drop], SourcesUp());
    StatusUpIs(db);
    if StatusFree(db) {
      MigrateOneIff(Statused(db), drop);
      DropApplies(db);
      if Accepts(Statused(db), drop) {
        SourcesApplyAfter(db);
      }
    }
  }

  lemma DropApplies(db: Database)
    requires StatusFree(db)
    ensures Accepts(Statused(db), DropColumn(Users, FLAG)) <==>
            HasColumn(db, Users, FLAG) && !ColumnReferenced(db, Users, FLAG)
  {
    StatusNamesDiffer();
    StatusedRefersAlike(db);
  }

  lemma SourcesApplyAfter(db: Database)
    requires StatusFree(db) && Accepts(Statused(db), DropColumn(Users, FLAG))
    ensures Migrate(Perform(Statused(db), DropColumn(Users, FLAG)), SourcesUp()).Some? <==>
            && NewsSources !in db.tables && HasColumn(db, Assets, "id")
            && SOURCES_NAME !in IndexesWithoutColumn(db, Users, FLAG)
  {
    var dropped := Perform(Statused(db), DropColumn(Users, FLAG));
    SourcesApply(dropped);
    DroppedHas(db);
    SourcesNameStays(db);
  }

  lemma DroppedHas(db: Database)
    requires StatusFree(db) && Accepts(Statused(db), DropColumn(Users, FLAG))
    ensures var dropped := Perform(Statused(db), DropColumn(Users, FLAG));
            && dropped.indexes == IndexesWithoutColumn(Statused(db), Users, FLAG)
            && (NewsSources in dropped.tables <==> NewsSources in db.tables)
            && (HasColumn(dropped, Assets, "id") <==> HasColumn(db, Assets, "id"))
  {}

  lemma SourcesNameStays(db: Database)
    requires Users in db.tables
    ensures SOURCES_NAME in IndexesWithoutColumn(Statused(db), Users, FLAG) <==>
            SOURCES_NAME in IndexesWithoutColumn(db, Users, FLAG)
  {
    assert SOURCES_NAME != Auto(Users, "status");
  }

  /**
   * The status revision applies exactly to ready schemas; its downgrade then gives the schema back
   * with the flag replaced, which changes nothing but the flag's default exactly when the flag was
   * a required boolean nothing depended on.
   */
  lemma AccountsThereAndBack(db: Database)
    requires WellFormed(db)
    ensures Migrate(db, AccountsUp()).Some? <==> AccountsReady(db)
    ensures AccountsReady(db) ==>
              var back := Migrate(Migrate(db, AccountsUp()).value, AccountsDown());
              && back == Some(FlagReplaced(db))
              && (back == Some(Perform(db, SetDefault(Users, FLAG, Some("true"))))
                  <==> !FlagHasDependents(db) && PlainFlag(db))
  {
    AccountsApply(db);
    if AccountsReady(db) {
      AccountsRoundTrip(db);
      AccountsRestoredIff(db);
    }
  }
}
