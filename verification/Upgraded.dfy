/** The schemas the later revisions leave, written out. */
module Upgraded {
  import opened Options
  import opened Schema
  import opened TableCreation
  import opened Revisions
  import opened Readiness

  // --- 371022dfaa5b ----------------------------------------------------------

  /** The queue's columns with the eight new ones. */
  function QueueColumns(had: map<string, Column>): map<string, Column> {
    had["max_retries" := Column("integer", false, Some("3"))]
       ["result" := Column("json", true, None)]
       ["available_at" := Column("timestamptz", false, Some("now()"))]
       ["locked_at" := Column("timestamptz", true, None)]
       ["locked_by" := Column("varchar(80)", true, None)]
       ["dedup_key" := Column("varchar(200)", true, None)]
       ["started_at" := Column("timestamptz", true, None)]
       ["finished_at" := Column("timestamptz", true, None)]
  }

  lemma QueueWidens(had: map<string, Column>)
    ensures WithColumns(had, JobColumns()) == QueueColumns(had)
  {
    var c := JobColumns();
    assert c[1..][1..] == c[2..] && c[2..][1..] == c[3..] && c[3..][1..] == c[4..] && c[4..][1..] == c[5..];
    assert c[5..][1..] == c[6..] && c[6..][1..] == c[7..] && c[7..][1..] == c[8..] == [];
    var m1 := had[c[0].0 := c[0].1];
    var m2 := m1[c[1].0 := c[1].1];
    var m3 := m2[c[2].0 := c[2].1];
    var m4 := m3[c[3].0 := c[3].1];
    var m5 := m4[c[4].0 := c[4].1];
    var m6 := m5[c[5].0 := c[5].1];
    var m7 := m6[c[6].0 := c[6].1];
    assert WithColumns(had, c) == WithColumns(m1, c[1..]) == WithColumns(m2, c[2..]);
    assert WithColumns(m2, c[2..]) == WithColumns(m3, c[3..]) == WithColumns(m4, c[4..]);
    assert WithColumns(m4, c[4..]) == WithColumns(m5, c[5..]) == WithColumns(m6, c[6..]);
    assert WithColumns(m6, c[6..]) == WithColumns(m7, c[7..]) == WithColumns(m7[c[7].0 := c[7].1], c[8..]);
  }

  /**
   * The queue gains its eight columns, an index to claim by, one on when a job is due, and a
   * deduplication key no two jobs can share.
   */
  lemma JobQueueUpIs(db: Database)
    requires JobQueueReady(db)
    ensures var was := db.tables[JobQueue];
            Migrate(db, JobQueueUp()) ==
            Some(Database(
              db.tables[JobQueue := was.(columns := QueueColumns(was.columns),
                                         uniques := was.uniques["uq_job_queue_dedup_key" := ["dedup_key"]])],
              db.indexes[Named("ix_job_claimable") := Index(JobQueue, ["status", "available_at"], false)]
                        [Auto(JobQueue, "available_at") := Index(JobQueue, ["available_at"], false)]))
  {
    var add, was := AddColumns(JobQueue, JobColumns()), db.tables[JobQueue];
    MigrateConcat(db, add, JobIndexes());
    JobColumnsApply(db);
    var wide := Migrate(db, add).value;
    JobIndexesApply(db, wide);
    JobIndexesAre(wide);
    QueueWidens(was.columns);
    PutTwice(db, was.(columns := QueueColumns(was.columns)),
             was.(columns := QueueColumns(was.columns),
                  uniques := was.uniques["uq_job_queue_dedup_key" := ["dedup_key"]]));
  }

  lemma PutTwice(db: Database, one: Table, two: Table)
    ensures db.tables[JobQueue := one][JobQueue := two] == db.tables[JobQueue := two]
  {}

  lemma JobIndexesAre(wide: Database)
    requires JobQueue in wide.tables && Migrate(wide, JobIndexes()).Some?
    ensures var was := wide.tables[JobQueue];
            Migrate(wide, JobIndexes()).value ==
            Database(
              wide.tables[JobQueue := was.(uniques := was.uniques["uq_job_queue_dedup_key" := ["dedup_key"]])],
              wide.indexes[Named("ix_job_claimable") := Index(JobQueue, ["status", "available_at"], false)]
                          [Auto(JobQueue, "available_at") := Index(JobQueue, ["available_at"], false)])
  {
    var ops := JobIndexes();
    assert ops == [ops[0]] + [ops[1]] + [ops[2]];
    IndexesThenUnique(wide, ops[0], ops[1], ops[2]);
  }

  // --- df94aedf2f33 and d5b2914c7ae0 -----------------------------------------

  /** A recommendation gains a language, Indonesian unless said otherwise, and its renderings. */
  lemma TranslationsUpIs(db: Database)
    ensures Migrate(db, TranslationsUp()).Some? <==>
            && Recommendations in db.tables
            && "language" !in db.tables[Recommendations].columns
            && "translations" !in db.tables[Recommendations].columns
    ensures Migrate(db, TranslationsUp()).Some? ==>
              var was := db.tables[Recommendations];
              Migrate(db, TranslationsUp()).value ==
              Database(
                db.tables[Recommendations := was.(columns := was.columns
                  ["language" := Column("varchar(5)", false, Some("id"))]
                  ["translations" := Column("json", false, Some("{}"))])],
                db.indexes)
  {
    var c := LanguageColumns();
    assert |"language"| == 8 && |"translations"| == 12;
    AddColumnsIs(db, Recommendations, c);
    assert c[1..][1..] == [];
    if Recommendations in db.tables {
      var had := db.tables[Recommendations].columns;
      assert WithColumns(had, c) == WithColumns(had[c[0].0 := c[0].1], c[1..]);
      assert WithColumns(had[c[0].0 := c[0].1], c[1..]) == had[c[0].0 := c[0].1][c[1].0 := c[1].1];
      assert (forall i :: 0 <= i < |c| ==> c[i].0 !in had) <==> c[0].0 !in had && c[1].0 !in had;
    }
  }

  /** The repair takes the language's default away and touches nothing else. */
  lemma RepairUpIs(db: Database)
    requires Migrate(db, RepairUp()).Some?
    ensures var was := db.tables[Recommendations];
            && "language" in was.columns
            && Migrate(db, RepairUp()).value ==
               Database(
                 db.tables[Recommendations := was.(columns := was.columns
                   ["language" := Column(was.columns["language"].kind, was.columns["language"].nullable, None)])],
                 db.indexes)
  {
    MigrateOne(db, RepairUp()[0]);
  }

  // --- b4d1f8a2c907 ----------------------------------------------------------

  function AgendaTable(): Table {
    Table(
      map["id" := Column("uuid", false, None), "ticker" := Column("varchar(20)", false, None),
          "kind" := Column("agendakind", false, None), "scheduled_for" := Column("date", false, None),
          "title" := Column("varchar(400)", false, None), "detail" := Column("text", true, None),
          "source" := Column("agendasource", false, None), "source_url" := Column("varchar(600)", true, None),
          "is_confirmed" := Column("boolean", false, Some("true")),
          "created_at" := Column("timestamptz", false, None), "updated_at" := Column("timestamptz", false, None)],
      map["uq_agenda_event" := ["ticker", "kind", "scheduled_for"]], map[])
  }

  function SharedTable(): Table {
    Table(
      map["id" := Column("uuid", false, None), "owner_id" := Column("uuid", false, None),
          "recipient_id" := Column("uuid", false, None), "kind" := Column("sharekind", false, None),
          "subject_id" := Column("uuid", false, None), "note" := Column("varchar(500)", true, None),
          "created_at" := Column("timestamptz", false, None), "revoked_at" := Column("timestamptz", true, None)],
      map["uq_share_target" := ["owner_id", "recipient_id", "kind", "subject_id"]],
      map["shared_items_owner_id_fkey" := ForeignKey(["owner_id"], Users, ["id"], "CASCADE"),
          "shared_items_recipient_id_fkey" := ForeignKey(["recipient_id"], Users, ["id"], "CASCADE")])
  }

  /** An analysis with the conversation it came from, which may go without it. */
  function OwnedAnalysis(was: Table): Table {
    was.(columns := was.columns["conversation_id" := Column("uuid", true, None)],
         foreign := was.foreign["fk_analysis_conversation" :=
                                ForeignKey(["conversation_id"], AiConversations, ["id"], "SET NULL")])
  }

  lemma ShapesAre()
    ensures AgendaShape() == AgendaTable()
    ensures SharedShape() == SharedTable()
  {}

  function WithIndexes(indexes: map<IndexName, Index>, ops: seq<Op>): map<IndexName, Index>
    requires forall i :: 0 <= i < |ops| ==> ops[i].CreateIndex?
    decreases |ops|
  {
    if |ops| == 0 then indexes
    else WithIndexes(indexes[ops[0].index := Index(ops[0].table, ops[0].columns, ops[0].unique)], ops[1..])
  }

  lemma {:induction false} BatchIs(db: Database, ops: seq<Op>)
    requires forall i :: 0 <= i < |ops| ==> ops[i].CreateIndex?
    requires Migrate(db, ops).Some?
    ensures Migrate(db, ops).value == Database(db.tables, WithIndexes(db.indexes, ops))
    decreases |ops|
  {
    if |ops| > 0 {
      BatchIs(Perform(db, ops[0]), ops[1..]);
    }
  }

  lemma ThreeIndexes(indexes: map<IndexName, Index>, ops: seq<Op>)
    requires |ops| == 3 && forall i :: 0 <= i < |ops| ==> ops[i].CreateIndex?
    ensures WithIndexes(indexes, ops) ==
            indexes[ops[0].index := Index(ops[0].table, ops[0].columns, ops[0].unique)]
                   [ops[1].index := Index(ops[1].table, ops[1].columns, ops[1].unique)]
                   [ops[2].index := Index(ops[2].table, ops[2].columns, ops[2].unique)]
  {
    var one := indexes[ops[0].index := Index(ops[0].table, ops[0].columns, ops[0].unique)];
    var two := one[ops[1].index := Index(ops[1].table, ops[1].columns, ops[1].unique)];
    var three := two[ops[2].index := Index(ops[2].table, ops[2].columns, ops[2].unique)];
    assert ops[1..][1..] == ops[2..] && ops[2..][1..] == ops[3..] == [];
    assert WithIndexes(indexes, ops) == WithIndexes(one, ops[1..]);
    assert WithIndexes(one, ops[1..]) == WithIndexes(two, ops[2..]);
    assert WithIndexes(two, ops[2..]) == WithIndexes(three, ops[3..]);
  }

  lemma TableAndThree(db: Database, create: Op, ops: seq<Op>)
    requires create.CreateTable? && |ops| == 3 && forall i :: 0 <= i < |ops| ==> ops[i].CreateIndex?
    requires Migrate(db, [create] + ops).Some?
    ensures Migrate(db, [create] + ops).value ==
            Database(db.tables[create.table := create.shape],
                     db.indexes[ops[0].index := Index(ops[0].table, ops[0].columns, ops[0].unique)]
                               [ops[1].index := Index(ops[1].table, ops[1].columns, ops[1].unique)]
                               [ops[2].index := Index(ops[2].table, ops[2].columns, ops[2].unique)])
  {
    MigrateConcat(db, [create], ops);
    MigrateOneIff(db, create);
    BatchIs(Perform(db, create), ops);
    ThreeIndexes(db.indexes, ops);
  }

  /** The agenda and its three indexes. */
  function WithAgenda(db: Database): Database {
    Database(
      db.tables[IssuerAgenda := AgendaTable()],
      db.indexes[Auto(IssuerAgenda, "ticker") := Index(IssuerAgenda, ["ticker"], false)]
                [Auto(IssuerAgenda, "scheduled_for") := Index(IssuerAgenda, ["scheduled_for"], false)]
                [Named("ix_agenda_upcoming") := Index(IssuerAgenda, ["scheduled_for", "ticker"], false)])
  }

  /** The shared items and theirs. */
  function WithShared(db: Database): Database {
    Database(
      db.tables[SharedItems := SharedTable()],
      db.indexes[Auto(SharedItems, "owner_id") := Index(SharedItems, ["owner_id"], false)]
                [Auto(SharedItems, "recipient_id") := Index(SharedItems, ["recipient_id"], false)]
                [Named("ix_share_recipient") := Index(SharedItems, ["recipient_id", "revoked_at"], false)])
  }

  /** And an owner on each analysis. */
  function WithOwner(db: Database): Database
    requires AnalysisResults in db.tables
  {
    Database(
      db.tables[AnalysisResults := OwnedAnalysis(db.tables[AnalysisResults])],
      db.indexes[Auto(AnalysisResults, "conversation_id") := Index(AnalysisResults, ["conversation_id"], false)])
  }

  lemma AgendaUpIs(db: Database)
    requires Migrate(db, AgendaUp()).Some?
    ensures Migrate(db, AgendaUp()).value == WithAgenda(db)
  {
    ShapesAre();
    TableAndThree(db, CreateTable(IssuerAgenda, AgendaShape()), AgendaIndexes());
  }

  lemma SharedUpIs(db: Database)
    requires Migrate(db, SharedUp()).Some?
    ensures Migrate(db, SharedUp()).value == WithShared(db)
  {
    ShapesAre();
    TableAndThree(db, CreateTable(SharedItems, SharedShape()), SharedIndexes());
  }

  lemma OwnerUpIs(db: Database)
    requires Migrate(db, OwnerUp()).Some?
    ensures AnalysisResults in db.tables && Migrate(db, OwnerUp()).value == WithOwner(db)
  {
    var ops := OwnerUp();
    OwnerApplies(db);
    assert ops == [ops[0]] + [ops[1]] + [ops[2]];
    StepByStep(db, ops[0], ops[1], ops[2]);
    ColumnIndexKey(db, ops[0], ops[1], ops[2]);
  }

  lemma StepByStep(db: Database, a: Op, b: Op, c: Op)
    requires Migrate(db, [a] + [b] + [c]).Some?
    ensures Accepts(db, a) && Accepts(Perform(db, a), b) && Accepts(Perform(Perform(db, a), b), c)
    ensures Migrate(db, [a] + [b] + [c]).value == Perform(Perform(Perform(db, a), b), c)
  {
    Stages(db, [a], [b], [c]);
    MigrateOneIff(db, a);
    MigrateOneIff(Perform(db, a), b);
    MigrateOneIff(Perform(Perform(db, a), b), c);
  }

  /** A column, an index and a foreign key on one table. */
  lemma ColumnIndexKey(db: Database, a: Op, b: Op, c: Op)
    requires a.AddColumn? && b.CreateIndex? && c.CreateForeignKey? && a.table == b.table == c.table
    requires Accepts(db, a) && Accepts(Perform(db, a), b) && Accepts(Perform(Perform(db, a), b), c)
    ensures var was := db.tables[a.table];
            Perform(Perform(Perform(db, a), b), c) ==
            Database(db.tables[a.table := was.(columns := was.columns[a.column := a.definition],
                                               foreign := was.foreign[c.constraint := c.key])],
                     db.indexes[b.index := Index(b.table, b.columns, b.unique)])
  {}

  /** The calendar, the sharing and the owner, one after the other. */
  lemma CalendarUpIs(db: Database)
    requires CalendarReady(db)
    ensures Migrate(db, CalendarUp()) == Some(WithOwner(WithShared(WithAgenda(db))))
  {
    CalendarApplies(db);
    assert CalendarUp() == AgendaUp() + SharedUp() + OwnerUp();
    Stages(db, AgendaUp(), SharedUp(), OwnerUp());
    AgendaUpIs(db);
    SharedUpIs(WithAgenda(db));
    OwnerUpIs(WithShared(WithAgenda(db)));
  }

  // --- c3f81a6e02b7 ----------------------------------------------------------

  function SourcesTable(): Table {
    Table(
      map["id" := Column("uuid", false, None), "name" := Column("varchar(120)", false, None),
          "feed_url" := Column("varchar(1000)", false, None), "asset_id" := Column("uuid", true, None),
          "is_active" := Column("boolean", false, Some("true")),
          "last_fetched_at" := Column("timestamptz", true, None), "last_status" := Column("varchar(20)", true, None),
          "last_error" := Column("text", true, None), "last_entry_count" := Column("integer", false, Some("0")),
          "consecutive_failures" := Column("integer", false, Some("0")),
          "created_at" := Column("timestamptz", false, None), "updated_at" := Column("timestamptz", false, None)],
      map["news_sources_feed_url_key" := ["feed_url"]],
      map["news_sources_asset_id_fkey" := ForeignKey(["asset_id"], Assets, ["id"], "CASCADE")])
  }

  /** An account with a status, active unless said otherwise, and without the flag. */
  function StatusedUsers(was: Table): Table {
    Table(
      was.columns["status" := Column("userstatus", false, Some("active"))]
                 ["suspended_until" := Column("timestamptz", true, None)]
                 ["status_reason" := Column("text", true, None)]
                 ["status_changed_at" := Column("timestamptz", true, None)] - {"is_active"},
      map u | u in was.uniques && "is_active" !in was.uniques[u] :: was.uniques[u],
      map k | k in was.foreign && !("is_active" in was.foreign[k].columns
                                    || (was.foreign[k].target == Users && "is_active" in was.foreign[k].targets))
        :: was.foreign[k])
  }

  lemma SourcesUpIs(db: Database)
    requires Migrate(db, SourcesUp()).Some?
    ensures Migrate(db, SourcesUp()).value ==
            Database(db.tables[NewsSources := SourcesTable()],
                     db.indexes[Auto(NewsSources, "asset_id") := Index(NewsSources, ["asset_id"], false)])
  {
    var create, index := SourcesUp()[0], SourcesUp()[1];
    assert SourcesUp() == [create] + [index];
    MigrateConcat(db, [create], [index]);
    MigrateOneIff(db, create);
    MigrateOneIff(Perform(db, create), index);
    assert SourcesShape() == SourcesTable();
  }

  lemma FlagDropped(db: Database)
    requires StatusFree(db) && Accepts(Statused(db), DropColumn(Users, FLAG))
    ensures var dropped := Perform(Statused(db), DropColumn(Users, FLAG));
            && dropped.tables == db.tables[Users := StatusedUsers(db.tables[Users])]
            && dropped.indexes == IndexesWithoutColumn(Statused(db), Users, FLAG)
  {
    var was, now := db.tables[Users], WithoutColumn(Widened(db.tables[Users]), Users, FLAG);
    assert now.columns == StatusedUsers(was).columns;
    assert now.uniques == StatusedUsers(was).uniques;
    assert now.foreign == StatusedUsers(was).foreign;
  }

  /** An account's status takes the flag's place, and news sources get a table of their own. */
  lemma AccountsUpIs(db: Database)
    requires AccountsReady(db)
    ensures var now := Migrate(db, AccountsUp());
            && now.Some?
            && now.value.tables ==
               db.tables[Users := StatusedUsers(db.tables[Users])][NewsSources := SourcesTable()]
            && now.value.indexes ==
               (map i | i in db.indexes && !(db.indexes[i].table == Users && "is_active" in db.indexes[i].columns)
                  :: db.indexes[i])
               [Auto(Users, "status") := Index(Users, ["status"], false)]
               [Auto(NewsSources, "asset_id") := Index(NewsSources, ["asset_id"], false)]
  {
    var drop := DropColumn(Users, FLAG);
    AccountsApply(db);
    Stages(db, StatusUp(), [drop], SourcesUp());
    StatusUpIs(db);
    MigrateOneIff(Statused(db), drop);
    FlagDropped(db);
    SourcesUpIs(Perform(Statused(db), drop));
    IndexesKept(db);
  }

  lemma IndexesKept(db: Database)
    requires StatusFree(db)
    ensures IndexesWithoutColumn(Statused(db), Users, FLAG) ==
            (map i | i in db.indexes && !(db.indexes[i].table == Users && "is_active" in db.indexes[i].columns)
               :: db.indexes[i])[Auto(Users, "status") := Index(Users, ["status"], false)]
  {
    StatusNamesDiffer();
    assert FLAG !in ["status"];
  }
}
