/** The schema side of the later revisions, step by step, and what a downgrade brings back. */
module Revisions {
  import opened Options
  import opened Schema
  import opened TableCreation

  const TIMESTAMP := "timestamptz"
  const JSON := "json"
  const UUID := "uuid"
  const TEXT := "text"
  const INTEGER := "integer"
  const BOOLEAN := "boolean"

  function Nullable(kind: string): Column { Column(kind, true, None) }

  function Required(kind: string): Column { Column(kind, false, None) }

  function Defaulted(kind: string, default: string): Column { Column(kind, false, Some(default)) }

  // --- 371022dfaa5b: claiming, retries, deduplication ------------------------

  const DEDUP_CONSTRAINT := "uq_job_queue_dedup_key"

  function JobColumns(): seq<(string, Column)> {
    [("max_retries", Defaulted(INTEGER, "3")),
     ("result", Nullable(JSON)),
     ("available_at", Defaulted(TIMESTAMP, "now()")),
     ("locked_at", Nullable(TIMESTAMP)),
     ("locked_by", Nullable("varchar(80)")),
     ("dedup_key", Nullable("varchar(200)")),
     ("started_at", Nullable(TIMESTAMP)),
     ("finished_at", Nullable(TIMESTAMP))]
  }

  function AddColumns(table: TableName, columns: seq<(string, Column)>): seq<Op> {
    if |columns| == 0 then []
    else [AddColumn(table, columns[0].0, columns[0].1)] + AddColumns(table, columns[1..])
  }

  function DropColumns(table: TableName, columns: seq<string>): seq<Op> {
    if |columns| == 0 then [] else [DropColumn(table, columns[0])] + DropColumns(table, columns[1..])
  }

  function JobIndexes(): seq<Op> {
    [CreateIndex(Named("ix_job_claimable"), JobQueue, ["status", "available_at"], false),
     CreateIndex(Auto(JobQueue, "available_at"), JobQueue, ["available_at"], false),
     CreateUnique(DEDUP_CONSTRAINT, JobQueue, ["dedup_key"])]
  }

  function JobQueueUp(): seq<Op> {
    AddColumns(JobQueue, JobColumns()) + JobIndexes()
  }

  /** The column loop of the downgrade runs over these names, in this order. */
  const JOB_COLUMNS_DOWN: seq<string> := [
    "finished_at", "started_at", "dedup_key", "locked_by", "locked_at", "available_at", "result",
    "max_retries"]

  function JobQueueDown(): seq<Op> {
    [DropConstraint(DEDUP_CONSTRAINT, JobQueue),
     DropIndex(Auto(JobQueue, "available_at")),
     DropIndex(Named("ix_job_claimable"))]
    + DropColumns(JobQueue, JOB_COLUMNS_DOWN)
  }

  lemma {:induction false} AddColumnsCreate(table: TableName, columns: seq<(string, Column)>)
    ensures AllCreate(AddColumns(table, columns))
  {
    if |columns| > 0 {
      AddColumnsCreate(table, columns[1..]);
    }
  }

  function Reversed(columns: seq<(string, Column)>): seq<string> {
    if |columns| == 0 then [] else Reversed(columns[1..]) + [columns[0].0]
  }

  lemma {:induction false} DropColumnsConcat(table: TableName, a: seq<string>, b: seq<string>)
    ensures DropColumns(table, a + b) == DropColumns(table, a) + DropColumns(table, b)
  {
    if |a| == 0 {
      assert a + b == b;
    } else {
      assert (a + b)[1..] == a[1..] + b;
      DropColumnsConcat(table, a[1..], b);
    }
  }

  lemma {:induction false} MirrorOfAddColumns(table: TableName, columns: seq<(string, Column)>)
    requires AllCreate(AddColumns(table, columns))
    ensures Mirror(AddColumns(table, columns)) == DropColumns(table, Reversed(columns))
  {
    if |columns| > 0 {
      var add := AddColumns(table, columns);
      AddColumnsCreate(table, columns[1..]);
      assert add[1..] == AddColumns(table, columns[1..]);
      MirrorOfAddColumns(table, columns[1..]);
      DropColumnsConcat(table, Reversed(columns[1..]), [columns[0].0]);
      assert [columns[0].0][1..] == [];
    }
  }

  lemma JobColumnsReversed()
    ensures Reversed(JobColumns()) == JOB_COLUMNS_DOWN
  {
    var c := JobColumns();
    assert Reversed(c[8..]) == [];
    assert Reversed(c[7..]) == ["finished_at"] by { assert c[7..][1..] == c[8..]; }
    assert Reversed(c[6..]) == ["finished_at", "started_at"] by { assert c[6..][1..] == c[7..]; }
    assert Reversed(c[5..]) == ["finished_at", "started_at", "dedup_key"] by { assert c[5..][1..] == c[6..]; }
    assert Reversed(c[4..]) == JOB_COLUMNS_DOWN[..4] by { assert c[4..][1..] == c[5..]; }
    assert Reversed(c[3..]) == JOB_COLUMNS_DOWN[..5] by { assert c[3..][1..] == c[4..]; }
    assert Reversed(c[2..]) == JOB_COLUMNS_DOWN[..6] by { assert c[2..][1..] == c[3..]; }
    assert Reversed(c[1..]) == JOB_COLUMNS_DOWN[..7] by { assert c[1..][1..] == c[2..]; }
  }

  lemma JobIndexesMirror()
    ensures AllCreate(JobIndexes())
    ensures Mirror(JobIndexes()) == [DropConstraint(DEDUP_CONSTRAINT, JobQueue),
                                     DropIndex(Auto(JobQueue, "available_at")),
                                     DropIndex(Named("ix_job_claimable"))]
  {
    var ops := JobIndexes();
    MirrorConcat([ops[0], ops[1]], [ops[2]]);
    MirrorConcat([ops[0]], [ops[1]]);
    assert ops == [ops[0], ops[1]] + [ops[2]];
    assert [ops[0], ops[1]] == [ops[0]] + [ops[1]];
    MirrorOfOne(ops[0]);
    MirrorOfOne(ops[1]);
    MirrorOfOne(ops[2]);
  }

  lemma JobQueueMirror()
    ensures AllCreate(JobQueueUp()) && Mirror(JobQueueUp()) == JobQueueDown()
  {
    JobIndexesMirror();
    MirrorOfColumnsAnd(JobQueue, JobColumns(), JobIndexes());
    JobColumnsReversed();
  }

  lemma MirrorOfColumnsAnd(table: TableName, columns: seq<(string, Column)>, more: seq<Op>)
    requires AllCreate(more)
    ensures AllCreate(AddColumns(table, columns) + more)
    ensures Mirror(AddColumns(table, columns) + more) == Mirror(more) + DropColumns(table, Reversed(columns))
  {
    AddColumnsCreate(table, columns);
    MirrorConcat(AddColumns(table, columns), more);
    MirrorOfAddColumns(table, columns);
  }

  lemma JobQueueRoundTrip(db: Database)
    requires WellFormed(db) && Migrate(db, JobQueueUp()).Some?
    ensures Migrate(Migrate(db, JobQueueUp()).value, JobQueueDown()) == Some(db)
  {
    JobQueueMirror();
    MirrorUndoes(db, JobQueueUp());
  }

  // --- df94aedf2f33 and d5b2914c7ae0: a recommendation's language ------------

  function LanguageColumns(): seq<(string, Column)> {
    [("language", Defaulted("varchar(5)", "id")), ("translations", Defaulted(JSON, "{}"))]
  }

  function TranslationsUp(): seq<Op> {
    AddColumns(Recommendations, LanguageColumns())
  }

  function TranslationsDown(): seq<Op> {
    DropColumns(Recommendations, ["translations", "language"])
  }

  lemma TranslationsRoundTrip(db: Database)
    requires WellFormed(db) && Migrate(db, TranslationsUp()).Some?
    ensures Migrate(Migrate(db, TranslationsUp()).value, TranslationsDown()) == Some(db)
  {
    var c := LanguageColumns();
    AddColumnsCreate(Recommendations, c);
    MirrorOfAddColumns(Recommendations, c);
    assert c[1..][1..] == [];
    assert Reversed(c[1..]) == ["translations"];
    assert Reversed(c) == ["translations", "language"];
    MirrorUndoes(db, TranslationsUp());
  }

  function RepairUp(): seq<Op> {
    [SetDefault(Recommendations, "language", None)]
  }

  function RepairDown(): seq<Op> {
    [SetDefault(Recommendations, "language", Some("id"))]
  }

  /** Taking the repair down gives the column the default "id", so restores only a schema that had it. */
  lemma RepairRoundTripIff(db: Database)
    requires Migrate(db, RepairUp()).Some?
    ensures Migrate(Migrate(db, RepairUp()).value, RepairDown()).Some?
    ensures Migrate(Migrate(db, RepairUp()).value, RepairDown()) == Some(db) <==>
            db.tables[Recommendations].columns["language"].default == Some("id")
  {
    var up := Perform(db, RepairUp()[0]);
    MigrateOne(db, RepairUp()[0]);
    MigrateOne(up, RepairDown()[0]);
    var back := Perform(up, RepairDown()[0]);
    var was, now := db.tables[Recommendations], back.tables[Recommendations];
    if was.columns["language"].default == Some("id") {
      assert now.columns == was.columns;
      assert back.tables == db.tables;
    } else {
      assert now.columns["language"].default == Some("id");
    }
  }

  // --- b4d1f8a2c907: calendar, sharing, an owner on each analysis ------------

  function AgendaShape(): Table {
    Table(
      map["id" := Required(UUID), "ticker" := Required("varchar(20)"), "kind" := Required("agendakind"),
          "scheduled_for" := Required("date"), "title" := Required("varchar(400)"),
          "detail" := Nullable(TEXT), "source" := Required("agendasource"),
          "source_url" := Nullable("varchar(600)"), "is_confirmed" := Defaulted(BOOLEAN, "true"),
          "created_at" := Required(TIMESTAMP), "updated_at" := Required(TIMESTAMP)],
      map["uq_agenda_event" := ["ticker", "kind", "scheduled_for"]],
      map[])
  }

  function SharedShape(): Table {
    Table(
      map["id" := Required(UUID), "owner_id" := Required(UUID), "recipient_id" := Required(UUID),
          "kind" := Required("sharekind"), "subject_id" := Required(UUID),
          "note" := Nullable("varchar(500)"), "created_at" := Required(TIMESTAMP),
          "revoked_at" := Nullable(TIMESTAMP)],
      map["uq_share_target" := ["owner_id", "recipient_id", "kind", "subject_id"]],
      map["shared_items_owner_id_fkey" := ForeignKey(["owner_id"], Users, ["id"], "CASCADE"),
          "shared_items_recipient_id_fkey" := ForeignKey(["recipient_id"], Users, ["id"], "CASCADE")])
  }

  function AgendaIndexes(): seq<Op> {
    [CreateIndex(Auto(IssuerAgenda, "ticker"), IssuerAgenda, ["ticker"], false),
     CreateIndex(Auto(IssuerAgenda, "scheduled_for"), IssuerAgenda, ["scheduled_for"], false),
     CreateIndex(Named("ix_agenda_upcoming"), IssuerAgenda, ["scheduled_for", "ticker"], false)]
  }

  function SharedIndexes(): seq<Op> {
    [CreateIndex(Auto(SharedItems, "owner_id"), SharedItems, ["owner_id"], false),
     CreateIndex(Auto(SharedItems, "recipient_id"), SharedItems, ["recipient_id"], false),
     CreateIndex(Named("ix_share_recipient"), SharedItems, ["recipient_id", "revoked_at"], false)]
  }

  function OwnerUp(): seq<Op> {
    [AddColumn(AnalysisResults, "conversation_id", Nullable(UUID)),
     CreateIndex(Auto(AnalysisResults, "conversation_id"), AnalysisResults, ["conversation_id"], false),
     CreateForeignKey("fk_analysis_conversation", AnalysisResults,
                      ForeignKey(["conversation_id"], AiConversations, ["id"], "SET NULL"))]
  }

  function OwnerDown(): seq<Op> {
    [DropConstraint("fk_analysis_conversation", AnalysisResults),
     DropIndex(Auto(AnalysisResults, "conversation_id")),
     DropColumn(AnalysisResults, "conversation_id")]
  }

  function CalendarUp(): seq<Op> {
    ([CreateTable(IssuerAgenda, AgendaShape())] + AgendaIndexes())
    + ([CreateTable(SharedItems, SharedShape())] + SharedIndexes())
    + OwnerUp()
  }

  /** Shorter than the mirror: the two tables take their six indexes with them. */
  function CalendarDown(): seq<Op> {
    OwnerDown() + [DropTable(SharedItems)] + [DropTable(IssuerAgenda)]
  }

  lemma OwnerMirror()
    ensures AllCreate(OwnerUp()) && Mirror(OwnerUp()) == OwnerDown()
  {
    var ops := OwnerUp();
    MirrorConcat([ops[0], ops[1]], [ops[2]]);
    MirrorConcat([ops[0]], [ops[1]]);
    assert ops == [ops[0], ops[1]] + [ops[2]];
    assert [ops[0], ops[1]] == [ops[0]] + [ops[1]];
    MirrorOfOne(ops[0]);
    MirrorOfOne(ops[1]);
    MirrorOfOne(ops[2]);
  }

  lemma CalendarRoundTrip(db: Database)
    requires WellFormed(db) && Migrate(db, CalendarUp()).Some?
    ensures Migrate(Migrate(db, CalendarUp()).value, CalendarDown()) == Some(db)
  {
    OwnerMirror();
    CalendarIndexes();
    TwoTablesAndMore(db, CreateTable(IssuerAgenda, AgendaShape()), AgendaIndexes(),
                     CreateTable(SharedItems, SharedShape()), SharedIndexes(), OwnerUp(),
                     CalendarUp(), CalendarDown());
  }

  lemma CalendarIndexes()
    ensures IndexesOn(AgendaIndexes(), IssuerAgenda) && IndexesOn(SharedIndexes(), SharedItems)
  {}

  /** Two indexed tables and further creating steps, undone by the mirrored steps and two drops. */
  lemma TwoTablesAndMore(db: Database, one: Op, ones: seq<Op>, two: Op, twos: seq<Op>, more: seq<Op>,
                         up: seq<Op>, down: seq<Op>)
    requires one.CreateTable? && IndexesOn(ones, one.table)
    requires two.CreateTable? && IndexesOn(twos, two.table)
    requires AllCreate(more) && WellFormed(db)
    requires up == ([one] + ones) + ([two] + twos) + more
    requires down == Mirror(more) + [DropTable(two.table)] + [DropTable(one.table)]
    requires Migrate(db, up).Some?
    ensures Migrate(Migrate(db, up).value, down) == Some(db)
  {
    var a, b := [one] + ones, [two] + twos;
    ThreeStages(db, a, b, more, Mirror(more), [DropTable(two.table)], [DropTable(one.table)]);
    var after := Migrate(db, a).value;
    MigrateKeepsWellFormed(db, a);
    MigrateKeepsWellFormed(after, b);
    MirrorUndoes(Migrate(after, b).value, more);
    DropUndoesTableAndIndexes(after, two, twos);
    DropUndoesTableAndIndexes(db, one, ones);
  }

  /** Three stages up and three stages down, split into their six parts. */
  lemma ThreeStages(db: Database, a: seq<Op>, b: seq<Op>, c: seq<Op>, x: seq<Op>, y: seq<Op>, z: seq<Op>)
    requires Migrate(db, a + b + c).Some?
    ensures Migrate(db, a).Some? && Migrate(Migrate(db, a).value, b).Some?
    ensures Migrate(Migrate(Migrate(db, a).value, b).value, c) == Migrate(db, a + b + c)
    ensures forall s: Database ::
              Migrate(s, x + y + z) ==
              match Migrate(s, x)
              case None => None
              case Some(t) => match Migrate(t, y) { case None => None case Some(u) => Migrate(u, z) }
  {
    MigrateConcat(db, a + b, c);
    MigrateConcat(db, a, b);
    forall s: Database
      ensures Migrate(s, x + y + z) ==
              match Migrate(s, x)
              case None => None
              case Some(t) => match Migrate(t, y) { case None => None case Some(u) => Migrate(u, z) }
    {
      MigrateConcat(s, x + y, z);
      MigrateConcat(s, x, y);
    }
  }

  // --- c3f81a6e02b7: a status instead of a flag ------------------------------

  function StatusColumns(): seq<(string, Column)> {
    [("status", Defaulted("userstatus", "active")),
     ("suspended_until", Nullable(TIMESTAMP)),
     ("status_reason", Nullable(TEXT)),
     ("status_changed_at", Nullable(TIMESTAMP))]
  }

  function StatusUp(): seq<Op> {
    AddColumns(Users, StatusColumns()) + [CreateIndex(Auto(Users, "status"), Users, ["status"], false)]
  }

  function StatusDown(): seq<Op> {
    [DropIndex(Auto(Users, "status"))]
    + DropColumns(Users, ["status_changed_at", "status_reason", "suspended_until", "status"])
  }

  function SourcesShape(): Table {
    Table(
      map["id" := Required(UUID), "name" := Required("varchar(120)"), "feed_url" := Required("varchar(1000)"),
          "asset_id" := Nullable(UUID), "is_active" := Defaulted(BOOLEAN, "true"),
          "last_fetched_at" := Nullable(TIMESTAMP), "last_status" := Nullable("varchar(20)"),
          "last_error" := Nullable(TEXT), "last_entry_count" := Defaulted(INTEGER, "0"),
          "consecutive_failures" := Defaulted(INTEGER, "0"),
          "created_at" := Required(TIMESTAMP), "updated_at" := Required(TIMESTAMP)],
      map["news_sources_feed_url_key" := ["feed_url"]],
      map["news_sources_asset_id_fkey" := ForeignKey(["asset_id"], Assets, ["id"], "CASCADE")])
  }

  function SourcesUp(): seq<Op> {
    [CreateTable(NewsSources, SourcesShape()),
     CreateIndex(Auto(NewsSources, "asset_id"), NewsSources, ["asset_id"], false)]
  }

  function SourcesDown(): seq<Op> {
    [DropIndex(Auto(NewsSources, "asset_id")), DropTable(NewsSources)]
  }

  const FLAG := "is_active"

  function AccountsUp(): seq<Op> {
    StatusUp() + [DropColumn(Users, FLAG)] + SourcesUp()
  }

  function AccountsDown(): seq<Op> {
    SourcesDown() + [AddColumn(Users, FLAG, Defaulted(BOOLEAN, "true"))] + StatusDown()
  }

  lemma StatusMirror()
    ensures AllCreate(StatusUp()) && Mirror(StatusUp()) == StatusDown()
  {
    var c := StatusColumns();
    var index := CreateIndex(Auto(Users, "status"), Users, ["status"], false);
    AddColumnsCreate(Users, c);
    MirrorConcat(AddColumns(Users, c), [index]);
    MirrorOfOne(index);
    MirrorOfAddColumns(Users, c);
    assert c[3..][1..] == [] && c[2..][1..] == c[3..] && c[1..][1..] == c[2..];
    assert Reversed(c[3..]) == ["status_changed_at"];
    assert Reversed(c[2..]) == ["status_changed_at", "status_reason"];
    assert Reversed(c[1..]) == ["status_changed_at", "status_reason", "suspended_until"];
    assert Reversed(c) == ["status_changed_at", "status_reason", "suspended_until", "status"];
  }

  lemma SourcesMirror()
    ensures AllCreate(SourcesUp()) && Mirror(SourcesUp()) == SourcesDown()
  {
    var ops := SourcesUp();
    MirrorConcat([ops[0]], [ops[1]]);
    assert ops == [ops[0]] + [ops[1]];
    MirrorOfOne(ops[0]);
    MirrorOfOne(ops[1]);
  }

  /** The flag dropped, with what depended on it in its own table, and added back with a default. */
  function FlagReplaced(db: Database): Database
    requires Users in db.tables
  {
    Database(db.tables[Users := Reflagged(db.tables[Users])], IndexesWithoutColumn(db, Users, FLAG))
  }

  /** The four columns and the index as one change. */
  function Statused(db: Database): Database
    requires Users in db.tables
  {
    Database(db.tables[Users := Widened(db.tables[Users])],
             db.indexes[Auto(Users, "status") := Index(Users, ["status"], false)])
  }

  ghost predicate StatusFree(db: Database) {
    && Users in db.tables
    && (forall c :: c in ["status", "suspended_until", "status_reason", "status_changed_at"] ==>
          c !in db.tables[Users].columns)
    && Auto(Users, "status") !in db.indexes
  }

  /** The four columns added to a table. */
  function Widened(t: Table): Table {
    t.(columns := t.columns
      ["status" := Defaulted("userstatus", "active")]
      ["suspended_until" := Nullable(TIMESTAMP)]
      ["status_reason" := Nullable(TEXT)]
      ["status_changed_at" := Nullable(TIMESTAMP)])
  }

  lemma StatusNamesDiffer()
    ensures |"status"| == 6 && |"suspended_until"| == 15 && |"status_reason"| == 13
            && |"status_changed_at"| == 17 && |FLAG| == 9
  {}

  lemma {:induction false} AddColumnsIs(db: Database, t: TableName, columns: seq<(string, Column)>)
    requires forall i, j :: 0 <= i < j < |columns| ==> columns[i].0 != columns[j].0
    requires |columns| > 0
    ensures Migrate(db, AddColumns(t, columns)).Some? <==>
            (t in db.tables && forall i :: 0 <= i < |columns| ==> columns[i].0 !in db.tables[t].columns)
    ensures Migrate(db, AddColumns(t, columns)).Some? ==>
              Migrate(db, AddColumns(t, columns)).value ==
              Put(db, t, db.tables[t].(columns := WithColumns(db.tables[t].columns, columns)))
    decreases |columns|
  {
    var op := AddColumn(t, columns[0].0, columns[0].1);
    var ops := AddColumns(t, columns);
    assert ops[0] == op && ops[1..] == AddColumns(t, columns[1..]);
    if Accepts(db, op) {
      var next := Perform(db, op);
      if |columns| == 1 {
        assert columns[1..] == [] && ops == [op];
        MigrateOne(db, op);
      } else {
        forall i, j | 0 <= i < j < |columns[1..]| ensures columns[1..][i].0 != columns[1..][j].0 {
          assert columns[1..][i] == columns[i + 1] && columns[1..][j] == columns[j + 1];
        }
        AddColumnsIs(next, t, columns[1..]);
        assert Migrate(db, ops) == Migrate(next, AddColumns(t, columns[1..]));
        NamesFreeNext(db, next, t, columns);
        if Migrate(db, ops).Some? {
          assert Migrate(db, ops).value.tables ==
                 db.tables[t := db.tables[t].(columns := WithColumns(db.tables[t].columns, columns))];
        }
      }
    }
  }

  lemma NamesFreeNext(db: Database, next: Database, t: TableName, columns: seq<(string, Column)>)
    requires |columns| > 1 && t in db.tables && columns[0].0 !in db.tables[t].columns
    requires forall i, j :: 0 <= i < j < |columns| ==> columns[i].0 != columns[j].0
    requires next == Perform(db, AddColumn(t, columns[0].0, columns[0].1))
    ensures (forall i :: 0 <= i < |columns[1..]| ==> columns[1..][i].0 !in next.tables[t].columns) <==>
            (forall i :: 0 <= i < |columns| ==> columns[i].0 !in db.tables[t].columns)
  {
    if forall i :: 0 <= i < |columns[1..]| ==> columns[1..][i].0 !in next.tables[t].columns {
      forall i | 0 <= i < |columns| ensures columns[i].0 !in db.tables[t].columns {
        if i > 0 { assert columns[1..][i - 1].0 !in next.tables[t].columns; }
      }
    }
  }

  function WithColumns(table: map<string, Column>, columns: seq<(string, Column)>): map<string, Column>
    decreases |columns|
  {
    if |columns| == 0 then table else WithColumns(table[columns[0].0 := columns[0].1], columns[1..])
  }

  lemma StatusWidens(columns: map<string, Column>)
    ensures WithColumns(columns, StatusColumns()) ==
            columns["status" := Defaulted("userstatus", "active")]
                   ["suspended_until" := Nullable(TIMESTAMP)]
                   ["status_reason" := Nullable(TEXT)]
                   ["status_changed_at" := Nullable(TIMESTAMP)]
  {
    var c := StatusColumns();
    assert c[1..][1..] == c[2..] && c[2..][1..] == c[3..] && c[3..][1..] == c[4..] == [];
    var one := columns[c[0].0 := c[0].1];
    var two := one[c[1].0 := c[1].1];
    var three := two[c[2].0 := c[2].1];
    assert WithColumns(columns, c) == WithColumns(one, c[1..]);
    assert WithColumns(one, c[1..]) == WithColumns(two, c[2..]);
    assert WithColumns(two, c[2..]) == WithColumns(three, c[3..]);
    assert WithColumns(three, c[3..]) == WithColumns(three[c[3].0 := c[3].1], c[4..]);
  }

  lemma StatusUpIs(db: Database)
    ensures Migrate(db, StatusUp()).Some? <==> StatusFree(db)
    ensures Migrate(db, StatusUp()).Some? ==> Migrate(db, StatusUp()).value == Statused(db)
  {
    var c := StatusColumns();
    var index := CreateIndex(Auto(Users, "status"), Users, ["status"], false);
    StatusNamesDiffer();
    MigrateConcat(db, AddColumns(Users, c), [index]);
    AddColumnsIs(db, Users, c);
    if Users in db.tables {
      StatusWidens(db.tables[Users].columns);
    }
    if Migrate(db, AddColumns(Users, c)).Some? {
      StatusIndexed(db, Migrate(db, AddColumns(Users, c)).value);
    }
  }

  lemma StatusIndexed(db: Database, wide: Database)
    requires Users in db.tables && wide == Put(db, Users, Widened(db.tables[Users]))
    ensures var r := Migrate(wide, [CreateIndex(Auto(Users, "status"), Users, ["status"], false)]);
            && (r.Some? <==> Auto(Users, "status") !in db.indexes)
            && (r.Some? ==> r.value == Statused(db))
  {
    var index := CreateIndex(Auto(Users, "status"), Users, ["status"], false);
    StatusNamesDiffer();
    if Accepts(wide, index) {
      MigrateOne(wide, index);
    } else {
      assert Migrate(wide, [index]) == None;
    }
  }

  /** Dropping and re-adding the flag in a table, with the constraints that go with it. */
  function Reflagged(t: Table): Table {
    var bare := WithoutColumn(t, Users, FLAG);
    bare.(columns := bare.columns[FLAG := Defaulted(BOOLEAN, "true")])
  }

  lemma WidenedAndReflaggedCommute(t: Table)
    ensures Widened(Reflagged(t)) == Reflagged(Widened(t))
  {
    StatusNamesDiffer();
    assert Widened(Reflagged(t)).columns == Reflagged(Widened(t)).columns;
  }

  /** Replacing the flag under the new columns is replacing it before them. */
  lemma FlagAndStatusCommute(db: Database)
    requires WellFormed(db) && StatusFree(db) && FLAG in db.tables[Users].columns
    ensures StatusFree(FlagReplaced(db))
    ensures FLAG in Statused(db).tables[Users].columns
    ensures Statused(FlagReplaced(db)) == FlagReplaced(Statused(db))
  {
    StatusNamesDiffer();
    TablesCommute(db);
    StatusIndexIsApart(db);
  }

  lemma TablesCommute(db: Database)
    requires Users in db.tables
    ensures Statused(FlagReplaced(db)).tables == FlagReplaced(Statused(db)).tables
  {
    WidenedAndReflaggedCommute(db.tables[Users]);
  }

  lemma StatusIndexIsApart(db: Database)
    requires Users in db.tables
    ensures Statused(FlagReplaced(db)).indexes == FlagReplaced(Statused(db)).indexes
  {
    StatusNamesDiffer();
    assert FLAG !in ["status"];
  }

  lemma FlagReplacedIs(db: Database)
    requires Accepts(db, DropColumn(Users, FLAG))
    ensures var dropped := Perform(db, DropColumn(Users, FLAG));
            && Accepts(dropped, AddColumn(Users, FLAG, Defaulted(BOOLEAN, "true")))
            && Perform(dropped, AddColumn(Users, FLAG, Defaulted(BOOLEAN, "true"))) == FlagReplaced(db)
  {}

  /** After the status revision and its downgrade, the flag has been replaced and nothing else moved. */
  lemma AccountsRoundTrip(db: Database)
    requires WellFormed(db) && Migrate(db, AccountsUp()).Some?
    ensures Users in db.tables && FLAG in db.tables[Users].columns
    ensures Migrate(Migrate(db, AccountsUp()).value, AccountsDown()) == Some(FlagReplaced(db))
  {
    var drop := DropColumn(Users, FLAG);
    var add := AddColumn(Users, FLAG, Defaulted(BOOLEAN, "true"));
    ThreeStages(db, StatusUp(), [drop], SourcesUp(), SourcesDown(), [add], StatusDown());
    StatusUpIs(db);
    var wide := Statused(db);
    assert Accepts(wide, drop);
    MigrateOne(wide, drop);
    var dropped := Perform(wide, drop);
    MigrateKeepsWellFormed(db, StatusUp());
    PerformKeepsWellFormed(wide, drop);
    SourcesMirror();
    MirrorUndoes(dropped, SourcesUp());
    FlagReplacedIs(wide);
    MigrateOne(dropped, add);
    FlagWasThere(db);
    FlagAndStatusCommute(db);
    StatusUpIs(FlagReplaced(db));
    FlagReplacedIsWellFormed(db);
    StatusMirror();
    MirrorUndoes(FlagReplaced(db), StatusUp());
  }

  lemma FlagWasThere(db: Database)
    requires StatusFree(db) && FLAG in Statused(db).tables[Users].columns
    ensures FLAG in db.tables[Users].columns
  {
    StatusNamesDiffer();
  }

  lemma ReferenceStays(db: Database)
    requires Users in db.tables && ColumnReferenced(db, Users, FLAG)
    ensures ColumnReferenced(Statused(db), Users, FLAG)
  {
    var t, k :| t in db.tables && t != Users && k in db.tables[t].foreign &&
                db.tables[t].foreign[k].target == Users && FLAG in db.tables[t].foreign[k].targets;
    assert Statused(db).tables[t] == db.tables[t];
  }

  lemma FlagReplacedIsWellFormed(db: Database)
    requires WellFormed(db) && StatusFree(db) && FLAG in db.tables[Users].columns
    requires Accepts(Statused(db), DropColumn(Users, FLAG))
    ensures WellFormed(FlagReplaced(db))
  {
    var drop := DropColumn(Users, FLAG);
    if ColumnReferenced(db, Users, FLAG) { ReferenceStays(db); }
    assert Accepts(db, drop);
    PerformKeepsWellFormed(db, drop);
    FlagReplacedIs(db);
    PerformKeepsWellFormed(Perform(db, drop), AddColumn(Users, FLAG, Defaulted(BOOLEAN, "true")));
  }

  /** Something in the users table, or an index on it, depends on the flag. */
  ghost predicate FlagHasDependents(db: Database)
    requires Users in db.tables
  {
    || (exists u :: u in db.tables[Users].uniques && FLAG in db.tables[Users].uniques[u])
    || (exists k :: k in db.tables[Users].foreign && KeyInvolves(db.tables[Users].foreign[k], Users, FLAG))
    || (exists i :: i in db.indexes && db.indexes[i].table == Users && FLAG in db.indexes[i].columns)
  }

  /** The flag's definition as a downgrade leaves it, but for the default. */
  ghost predicate PlainFlag(db: Database)
    requires Users in db.tables && FLAG in db.tables[Users].columns
  {
    db.tables[Users].columns[FLAG].kind == BOOLEAN && !db.tables[Users].columns[FLAG].nullable
  }

  lemma FlagKeptIf(db: Database)
    requires Users in db.tables && FLAG in db.tables[Users].columns
    requires !FlagHasDependents(db) && PlainFlag(db)
    ensures FlagReplaced(db) == Perform(db, SetDefault(Users, FLAG, Some("true")))
  {
    var want, got := Perform(db, SetDefault(Users, FLAG, Some("true"))), FlagReplaced(db);
    var t := db.tables[Users];
    assert got.tables[Users].columns == want.tables[Users].columns;
    assert got.tables[Users].uniques == t.uniques;
    assert got.tables[Users].foreign == t.foreign;
    assert got.indexes == db.indexes;
  }

  lemma FlagKeptOnlyIf(db: Database)
    requires Users in db.tables && FLAG in db.tables[Users].columns
    requires FlagReplaced(db) == Perform(db, SetDefault(Users, FLAG, Some("true")))
    ensures !FlagHasDependents(db) && PlainFlag(db)
  {
    var want, got := Perform(db, SetDefault(Users, FLAG, Some("true"))), FlagReplaced(db);
    var t := db.tables[Users];
    assert got.tables[Users] == want.tables[Users];
    assert got.tables[Users].columns[FLAG] == Defaulted(BOOLEAN, "true");
    forall u | u in t.uniques ensures FLAG !in t.uniques[u] {
      assert u in got.tables[Users].uniques;
    }
    forall k | k in t.foreign ensures !KeyInvolves(t.foreign[k], Users, FLAG) {
      assert k in got.tables[Users].foreign;
    }
    forall i | i in db.indexes && db.indexes[i].table == Users ensures FLAG !in db.indexes[i].columns {
      assert i in got.indexes;
    }
  }

  /**
   * The round trip gives back the schema it started from, but for the flag's new default, exactly
   * when the flag was a required boolean and nothing depended on it.
   */
  lemma AccountsRestoredIff(db: Database)
    requires WellFormed(db) && Migrate(db, AccountsUp()).Some?
    ensures Users in db.tables && FLAG in db.tables[Users].columns
    ensures Migrate(Migrate(db, AccountsUp()).value, AccountsDown()) ==
            Some(Perform(db, SetDefault(Users, FLAG, Some("true"))))
            <==> (!FlagHasDependents(db) && PlainFlag(db))
  {
    AccountsRoundTrip(db);
    if !FlagHasDependents(db) && PlainFlag(db) {
      FlagKeptIf(db);
    } else if FlagReplaced(db) == Perform(db, SetDefault(Users, FLAG, Some("true"))) {
      FlagKeptOnlyIf(db);
    }
  }
}
