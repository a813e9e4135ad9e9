/** The first revision: thirty-one tables, created in dependency order and dropped in the reverse. */
module InitialSchema {
  import opened Options
  import opened Schema
  import opened TableCreation

  const TABLES: nat := 31

  function Specs0(i: nat): TableSpec
    requires i < 8
  {
    match i
    case 0 => TableSpec(AiProviders, {}, [])
    case 1 => TableSpec(Assets, {}, [NewIndex(Auto(Assets, "ticker"), ["ticker"], false)])
    case 2 => TableSpec(AuditLogs, {},
      [NewIndex(Named("ix_audit_entity_created"), ["entity", "created_at"], false)])
    case 3 => TableSpec(KnowledgeBase, {}, [])
    case 4 => TableSpec(PromptTemplates, {}, [])
    case 5 => TableSpec(SchedulerJobs, {}, [NewIndex(Auto(SchedulerJobs, "next_run_at"), ["next_run_at"], false)])
    case 6 => TableSpec(SystemConfiguration, {}, [])
    case _ => TableSpec(Users, {}, [NewIndex(Auto(Users, "email"), ["email"], true)])
  }

  function Specs8(i: nat): TableSpec
    requires 8 <= i < 16
  {
    match i
    case 8 => TableSpec(AiConversations, {Users}, [NewIndex(Auto(AiConversations, "user_id"), ["user_id"], false)])
    case 9 => TableSpec(AnalysisResults, {Assets},
      [NewIndex(Named("ix_analysis_asset_generated"), ["asset_id", "generated_at"], false),
       NewIndex(Auto(AnalysisResults, "asset_id"), ["asset_id"], false)])
    case 10 => TableSpec(FeatureSnapshots, {Assets}, [])
    case 11 => TableSpec(FundamentalMetrics, {Assets}, [])
    case 12 => TableSpec(HistoricalPrices, {Assets},
      [NewIndex(Named("ix_price_asset_tf_ts"), ["asset_id", "timeframe", "timestamp"], false)])
    case 13 => TableSpec(JobQueue, {SchedulerJobs}, [NewIndex(Auto(JobQueue, "status"), ["status"], false)])
    case 14 => TableSpec(KnowledgeChunks, {KnowledgeBase},
      [NewIndex(Auto(KnowledgeChunks, "knowledge_base_id"), ["knowledge_base_id"], false)])
    case _ => TableSpec(Notifications, {Users}, [NewIndex(Auto(Notifications, "user_id"), ["user_id"], false)])
  }

  function Specs16(i: nat): TableSpec
    requires 16 <= i < 24
  {
    match i
    case 16 => TableSpec(Portfolios, {Users}, [NewIndex(Auto(Portfolios, "user_id"), ["user_id"], false)])
    case 17 => TableSpec(ProviderIngestionRuns, {Assets}, [])
    case 18 => TableSpec(TechnicalIndicators, {Assets},
      [NewIndex(Named("ix_indicator_lookup"), ["asset_id", "timeframe", "indicator_name", "timestamp"], false)])
    case 19 => TableSpec(TickerNewsSchedules, {Assets, Users},
      [NewIndex(Auto(TickerNewsSchedules, "next_run_at"), ["next_run_at"], false),
       NewIndex(Auto(TickerNewsSchedules, "user_id"), ["user_id"], false)])
    case 20 => TableSpec(Watchlists, {Users}, [NewIndex(Auto(Watchlists, "user_id"), ["user_id"], false)])
    case 21 => TableSpec(AiMessages, {AiConversations, PromptTemplates, AiProviders},
      [NewIndex(Named("ix_ai_message_created"), ["created_at"], false),
       NewIndex(Auto(AiMessages, "conversation_id"), ["conversation_id"], false)])
    case 22 => TableSpec(NewsItems, {Assets, TickerNewsSchedules},
      [NewIndex(Named("ix_news_asset_published"), ["asset_id", "published_at"], false),
       NewIndex(Auto(NewsItems, "asset_id"), ["asset_id"], false),
       NewIndex(Auto(NewsItems, "dedup_hash"), ["dedup_hash"], true),
       NewIndex(Auto(NewsItems, "published_at"), ["published_at"], false)])
    case _ => TableSpec(PortfolioAnalysis, {Portfolios},
      [NewIndex(Auto(PortfolioAnalysis, "portfolio_id"), ["portfolio_id"], false)])
  }

  function Specs24(i: nat): TableSpec
    requires 24 <= i < 31
  {
    match i
    case 24 => TableSpec(PortfolioHoldings, {Assets, Portfolios},
      [NewIndex(Auto(PortfolioHoldings, "portfolio_id"), ["portfolio_id"], false)])
    case 25 => TableSpec(Recommendations, {AnalysisResults},
      [NewIndex(Auto(Recommendations, "analysis_result_id"), ["analysis_result_id"], false)])
    case 26 => TableSpec(RiskAssessments, {AnalysisResults, Portfolios}, [])
    case 27 => TableSpec(WatchlistItems, {Assets, Watchlists},
      [NewIndex(Auto(WatchlistItems, "watchlist_id"), ["watchlist_id"], false)])
    case 28 => TableSpec(InvestmentJournal, {Assets, Recommendations, Users},
      [NewIndex(Auto(InvestmentJournal, "user_id"), ["user_id"], false)])
    case 29 => TableSpec(NewsEmbeddings, {NewsItems},
      [NewIndex(Auto(NewsEmbeddings, "news_item_id"), ["news_item_id"], false)])
    case _ => TableSpec(SentimentScores, {NewsItems},
      [NewIndex(Auto(SentimentScores, "news_item_id"), ["news_item_id"], false)])
  }

  /** The `i`-th table the upgrade creates. */
  function Spec(i: nat): TableSpec
    requires i < TABLES
  {
    if i < 8 then Specs0(i) else if i < 16 then Specs8(i) else if i < 24 then Specs16(i) else Specs24(i)
  }

  function Listed0(i: nat): seq<Op>
    requires i < 8
  {
    match i
    case 0 => [DropIndex(Auto(SentimentScores, "news_item_id")), DropTable(SentimentScores)]
    case 1 => [DropIndex(Auto(NewsEmbeddings, "news_item_id")), DropTable(NewsEmbeddings)]
    case 2 => [DropIndex(Auto(InvestmentJournal, "user_id")), DropTable(InvestmentJournal)]
    case 3 => [DropIndex(Auto(WatchlistItems, "watchlist_id")), DropTable(WatchlistItems)]
    case 4 => [DropTable(RiskAssessments)]
    case 5 => [DropIndex(Auto(Recommendations, "analysis_result_id")), DropTable(Recommendations)]
    case 6 => [DropIndex(Auto(PortfolioHoldings, "portfolio_id")), DropTable(PortfolioHoldings)]
    case _ => [DropIndex(Auto(PortfolioAnalysis, "portfolio_id")), DropTable(PortfolioAnalysis)]
  }

  function Listed8(i: nat): seq<Op>
    requires 8 <= i < 16
  {
    match i
    case 8 =>
      [DropIndex(Auto(NewsItems, "published_at")),
       DropIndex(Auto(NewsItems, "dedup_hash")),
       DropIndex(Auto(NewsItems, "asset_id")),
       DropIndex(Named("ix_news_asset_published")),
       DropTable(NewsItems)]
    case 9 =>
      [DropIndex(Auto(AiMessages, "conversation_id")),
       DropIndex(Named("ix_ai_message_created")),
       DropTable(AiMessages)]
    case 10 => [DropIndex(Auto(Watchlists, "user_id")), DropTable(Watchlists)]
    case 11 =>
      [DropIndex(Auto(TickerNewsSchedules, "user_id")),
       DropIndex(Auto(TickerNewsSchedules, "next_run_at")),
       DropTable(TickerNewsSchedules)]
    case 12 => [DropIndex(Named("ix_indicator_lookup")), DropTable(TechnicalIndicators)]
    case 13 => [DropTable(ProviderIngestionRuns)]
    case 14 => [DropIndex(Auto(Portfolios, "user_id")), DropTable(Portfolios)]
    case _ => [DropIndex(Auto(Notifications, "user_id")), DropTable(Notifications)]
  }

  function Listed16(i: nat): seq<Op>
    requires 16 <= i < 24
  {
    match i
    case 16 => [DropIndex(Auto(KnowledgeChunks, "knowledge_base_id")), DropTable(KnowledgeChunks)]
    case 17 => [DropIndex(Auto(JobQueue, "status")), DropTable(JobQueue)]
    case 18 => [DropIndex(Named("ix_price_asset_tf_ts")), DropTable(HistoricalPrices)]
    case 19 => [DropTable(FundamentalMetrics)]
    case 20 => [DropTable(FeatureSnapshots)]
    case 21 =>
      [DropIndex(Auto(AnalysisResults, "asset_id")),
       DropIndex(Named("ix_analysis_asset_generated")),
       DropTable(AnalysisResults)]
    case 22 => [DropIndex(Auto(AiConversations, "user_id")), DropTable(AiConversations)]
    case _ => [DropIndex(Auto(Users, "email")), DropTable(Users)]
  }

  function Listed24(i: nat): seq<Op>
    requires 24 <= i < 31
  {
    match i
    case 24 => [DropTable(SystemConfiguration)]
    case 25 => [DropIndex(Auto(SchedulerJobs, "next_run_at")), DropTable(SchedulerJobs)]
    case 26 => [DropTable(PromptTemplates)]
    case 27 => [DropTable(KnowledgeBase)]
    case 28 => [DropIndex(Named("ix_audit_entity_created")), DropTable(AuditLogs)]
    case 29 => [DropIndex(Auto(Assets, "ticker")), DropTable(Assets)]
    case _ => [DropTable(AiProviders)]
  }

  /** The `i`-th group of steps of the downgrade, as its text lists them. */
  function Listed(i: nat): seq<Op>
    requires i < TABLES
  {
    if i < 8 then Listed0(i) else if i < 16 then Listed8(i) else if i < 24 then Listed16(i) else Listed24(i)
  }

  function Specs(): seq<TableSpec> {
    seq(TABLES, i requires 0 <= i < TABLES => Spec(i))
  }

  ghost function Upgrade(shapes: Shapes): seq<Op>
    requires Fitting(Specs(), shapes)
  {
    Up(Specs(), shapes)
  }

  function Downgrade(): seq<Op> {
    Flat(seq(TABLES, i requires 0 <= i < TABLES => Listed(i)))
  }

  function Flat(groups: seq<seq<Op>>): seq<Op> {
    if |groups| == 0 then [] else groups[0] + Flat(groups[1..])
  }

  // --- the facts that depend on the lists ------------------------------------

  /** Where a table comes in the order of creation. */
  function Rank(t: TableName): nat {
    match t
    case AiProviders => 0
    case Assets => 1
    case AuditLogs => 2
    case KnowledgeBase => 3
    case PromptTemplates => 4
    case SchedulerJobs => 5
    case SystemConfiguration => 6
    case Users => 7
    case AiConversations => 8
    case AnalysisResults => 9
    case FeatureSnapshots => 10
    case FundamentalMetrics => 11
    case HistoricalPrices => 12
    case JobQueue => 13
    case KnowledgeChunks => 14
    case Notifications => 15
    case Portfolios => 16
    case ProviderIngestionRuns => 17
    case TechnicalIndicators => 18
    case TickerNewsSchedules => 19
    case Watchlists => 20
    case AiMessages => 21
    case NewsItems => 22
    case PortfolioAnalysis => 23
    case PortfolioHoldings => 24
    case Recommendations => 25
    case RiskAssessments => 26
    case WatchlistItems => 27
    case InvestmentJournal => 28
    case NewsEmbeddings => 29
    case SentimentScores => 30
    case _ => TABLES
  }

  /** Where the table an index is built on comes in that order. */
  function Owner(i: IndexName): nat {
    match i
    case Auto(t, _) => Rank(t)
    case Named(n) =>
      if n == "ix_audit_entity_created" then 2
      else if n == "ix_analysis_asset_generated" then 9
      else if n == "ix_price_asset_tf_ts" then 12
      else if n == "ix_indicator_lookup" then 18
      else if n == "ix_ai_message_created" then 21
      else if n == "ix_news_asset_published" then 22
      else TABLES
  }

  ghost predicate Owns(i: nat, indexes: seq<NewIndex>) {
    && (forall a :: 0 <= a < |indexes| ==> Owner(indexes[a].name) == i)
    && (forall a, b :: 0 <= a < b < |indexes| ==> indexes[a].name != indexes[b].name)
  }

  ghost predicate OwnsIndexes(i: nat)
    requires i < TABLES
  {
    Owns(i, Spec(i).indexes)
  }

  lemma RankOfSpecLow(i: nat)
    requires i < 16
    ensures Rank(Spec(i).table) == i
  {}

  lemma RankOfSpecHigh(i: nat)
    requires 16 <= i < TABLES
    ensures Rank(Spec(i).table) == i
  {}

  lemma RankOfSpec(i: nat)
    requires i < TABLES
    ensures Rank(Spec(i).table) == i
  {
    if i < 16 { RankOfSpecLow(i); } else { RankOfSpecHigh(i); }
  }

  ghost predicate TargetsEarlier(i: nat)
    requires i < TABLES
  {
    forall t :: t in Spec(i).targets ==> Rank(t) < i && Spec(Rank(t)).table == t
  }

  lemma TargetsComeFirst0(i: nat)
    requires i < 12
    ensures TargetsEarlier(i)
  {}

  lemma TargetsComeFirst12(i: nat)
    requires 12 <= i < 20
    ensures TargetsEarlier(i)
  {}

  lemma TargetsComeFirst20(i: nat)
    requires 20 <= i < 23
    ensures TargetsEarlier(i)
  {}

  lemma TargetsComeFirst23(i: nat)
    requires 23 <= i < 26
    ensures TargetsEarlier(i)
  {}

  lemma TargetsComeFirst26(i: nat)
    requires 26 <= i < 31
    ensures TargetsEarlier(i)
  {}

  lemma TargetsComeFirst(i: nat, t: TableName)
    requires i < TABLES && t in Spec(i).targets
    ensures Rank(t) < i && Spec(Rank(t)).table == t
  {
    if i < 12 { TargetsComeFirst0(i); }
    else if i < 20 { TargetsComeFirst12(i); }
    else if i < 23 { TargetsComeFirst20(i); }
    else if i < 26 { TargetsComeFirst23(i); }
    else { TargetsComeFirst26(i); }
  }

  lemma OwnsIndexes0(i: nat)
    requires 0 <= i < 4
    ensures OwnsIndexes(i)
    ensures Listed(TABLES - 1 - i) == DropSteps(Spec(i))
  {}

  lemma OwnsIndexes4(i: nat)
    requires 4 <= i < 8
    ensures OwnsIndexes(i)
    ensures Listed(TABLES - 1 - i) == DropSteps(Spec(i))
  {}

  lemma OwnsIndexes8(i: nat)
    requires 8 <= i < 12
    ensures OwnsIndexes(i)
    ensures Listed(TABLES - 1 - i) == DropSteps(Spec(i))
  {}

  lemma OwnsIndexes12(i: nat)
    requires 12 <= i < 16
    ensures OwnsIndexes(i)
    ensures Listed(TABLES - 1 - i) == DropSteps(Spec(i))
  {}

  lemma OwnsIndexes16(i: nat)
    requires 16 <= i < 21
    ensures OwnsIndexes(i)
    ensures Listed(TABLES - 1 - i) == DropSteps(Spec(i))
  {}

  lemma OwnsIndexes23(i: nat)
    requires 23 <= i < 27
    ensures OwnsIndexes(i)
    ensures Listed(TABLES - 1 - i) == DropSteps(Spec(i))
  {}

  lemma OwnsIndexes27(i: nat)
    requires 27 <= i < 29
    ensures OwnsIndexes(i)
    ensures Listed(TABLES - 1 - i) == DropSteps(Spec(i))
  {}

  lemma OwnsIndexes29(i: nat)
    requires 29 <= i < 31
    ensures OwnsIndexes(i)
    ensures Listed(TABLES - 1 - i) == DropSteps(Spec(i))
  {}

  lemma MessagesOwnIndexes()
    ensures OwnsIndexes(21)
  {
    assert |Spec(21).indexes| == 2;
  }

  lemma MessagesDropListed()
    ensures Listed(TABLES - 1 - 21) == DropSteps(Spec(21))
  {
    var listed, drops := Listed(9), DropSteps(Spec(21));
    assert |drops| == 3;
    assert drops[0] == listed[0];
    assert drops[1] == listed[1];
    assert drops[2] == listed[2];
  }

  /** The news table carries four indexes. */
  lemma NewsOwnsIndexes()
    ensures OwnsIndexes(22)
  {
    NewsIndexNames();
    NewsOwns(Spec(22).indexes);
  }

  lemma NewsOwns(indexes: seq<NewIndex>)
    requires |indexes| == 4
    requires indexes[0].name == Named("ix_news_asset_published")
    requires indexes[1].name == Auto(NewsItems, "asset_id")
    requires indexes[2].name == Auto(NewsItems, "dedup_hash")
    requires indexes[3].name == Auto(NewsItems, "published_at")
    ensures Owns(22, indexes)
  {
    NewsNamedIndex();
    forall a | 0 <= a < 4 ensures Owner(indexes[a].name) == 22 {
      if a > 0 { assert indexes[a].name.Auto? && indexes[a].name.table == NewsItems; }
    }
    FourDiffer(indexes[0].name, indexes[1].name, indexes[2].name, indexes[3].name);
  }

  lemma FourDiffer(a: IndexName, b: IndexName, c: IndexName, d: IndexName)
    requires a.Named? && b == Auto(NewsItems, "asset_id")
    requires c == Auto(NewsItems, "dedup_hash") && d == Auto(NewsItems, "published_at")
    ensures a != b && a != c && a != d && b != c && b != d && c != d
  {
    NewsColumnsDiffer();
  }

  lemma NewsIndexNames()
    ensures var indexes := Spec(22).indexes;
            && |indexes| == 4
            && indexes[0].name == Named("ix_news_asset_published")
            && indexes[1].name == Auto(NewsItems, "asset_id")
            && indexes[2].name == Auto(NewsItems, "dedup_hash")
            && indexes[3].name == Auto(NewsItems, "published_at")
  {}

  lemma NewsColumnsDiffer()
    ensures "asset_id" != "dedup_hash" && "asset_id" != "published_at" && "dedup_hash" != "published_at"
  {
    assert |"asset_id"| == 8 && |"dedup_hash"| == 10 && |"published_at"| == 12;
  }

  lemma NewsNamedIndex()
    ensures Owner(Named("ix_news_asset_published")) == 22
  {
    assert "ix_news_asset_published"[3] == 'n' && "ix_audit_entity_created"[3] == 'a';
  }

  lemma NewsDropsListed()
    ensures Listed(TABLES - 1 - 22) == DropSteps(Spec(22))
  {
    var listed, drops := Listed(8), DropSteps(Spec(22));
    assert |drops| == 5;
    assert drops[0] == listed[0];
    assert drops[1] == listed[1];
    assert drops[2] == listed[2];
    assert drops[3] == listed[3];
    assert drops[4] == listed[4];
  }

  lemma ListsAgree(i: nat)
    requires i < TABLES
    ensures OwnsIndexes(i)
    ensures Listed(TABLES - 1 - i) == DropSteps(Spec(i))
  {
    if i < 4 { OwnsIndexes0(i); }
    else if i < 8 { OwnsIndexes4(i); }
    else if i < 12 { OwnsIndexes8(i); }
    else if i < 16 { OwnsIndexes12(i); }
    else if i < 21 { OwnsIndexes16(i); }
    else if i == 21 { MessagesOwnIndexes(); MessagesDropListed(); }
    else if i == 22 { NewsOwnsIndexes(); NewsDropsListed(); }
    else if i < 27 { OwnsIndexes23(i); }
    else if i < 29 { OwnsIndexes27(i); }
    else { OwnsIndexes29(i); }
  }

  // --- the revision ----------------------------------------------------------

  lemma SpecsAreOrderly()
    ensures Orderly(Specs())
  {
    var specs := Specs();
    forall i, j | 0 <= i < j < |specs| ensures specs[i].table != specs[j].table {
      RankOfSpec(i);
      RankOfSpec(j);
    }
    forall i, t | 0 <= i < |specs| && t in specs[i].targets ensures Earlier(specs, i, t) {
      TargetsComeFirst(i, t);
      assert specs[Rank(t)].table == t;
    }
    forall i, j, a, b | 0 <= i <= j < |specs| && 0 <= a < |specs[i].indexes| && 0 <= b < |specs[j].indexes| &&
                        (i < j || a < b)
      ensures specs[i].indexes[a].name != specs[j].indexes[b].name
    {
      ListsAgree(i);
      ListsAgree(j);
    }
  }

  /** Groups that drop the tables last to first are, in order, the downgrade of those tables. */
  lemma {:induction false} GroupsAreDown(groups: seq<seq<Op>>, specs: seq<TableSpec>)
    requires |groups| == |specs|
    requires forall i :: 0 <= i < |specs| ==> groups[|specs| - 1 - i] == DropSteps(specs[i])
    ensures Flat(groups) == Down(specs)
  {
    if |specs| > 0 {
      var last := |specs| - 1;
      assert groups[0] == groups[|specs| - 1 - last] == DropSteps(specs[last]);
      forall i | 0 <= i < last ensures groups[1..][last - 1 - i] == DropSteps(specs[..last][i]) {
        assert groups[1..][last - 1 - i] == groups[|specs| - 1 - i];
      }
      GroupsAreDown(groups[1..], specs[..last]);
    }
  }

  lemma DowngradeIsDown()
    ensures Downgrade() == Down(Specs())
  {
    var groups := seq(TABLES, i requires 0 <= i < TABLES => Listed(i));
    forall i | 0 <= i < TABLES ensures groups[TABLES - 1 - i] == DropSteps(Specs()[i]) {
      ListsAgree(i);
    }
    GroupsAreDown(groups, Specs());
  }

  /** Wherever the first revision can be applied, taking it down restores what was there. */
  lemma InitialRoundTrip(db: Database, shapes: Shapes)
    requires WellFormed(db) && Fitting(Specs(), shapes) && Migrate(db, Upgrade(shapes)).Some?
    ensures Migrate(Migrate(db, Upgrade(shapes)).value, Downgrade()) == Some(db)
  {
    DowngradeIsDown();
    DownUndoesUp(db, Specs(), shapes);
  }

  /** The first revision applies to any database that uses none of its names, so to an empty one. */
  lemma InitialUpgradeApplies(db: Database, shapes: Shapes)
    requires WellFormed(db) && Fitting(Specs(), shapes) && Unclaimed(db, Specs())
    ensures Migrate(db, Upgrade(shapes)).Some?
    ensures WellFormed(Migrate(db, Upgrade(shapes)).value)
  {
    SpecsAreOrderly();
    UpApplies(db, Specs(), shapes);
  }

  // --- what the lists say ----------------------------------------------------

  /** An index named after a table and a column is on that table and that column alone. */
  ghost predicate WellNamed(i: nat)
    requires i < TABLES
  {
    forall a :: 0 <= a < |Spec(i).indexes| ==> NamedAsBuilt(Spec(i).table, Spec(i).indexes[a])
  }

  /** The six names chosen by hand stand for these columns, and two indexes are unique. */
  predicate NamedAsBuilt(t: TableName, i: NewIndex) {
    match i.name
    case Auto(table, column) =>
      && table == t && i.columns == [column]
      && (i.unique <==> i.name == Auto(Users, "email") || i.name == Auto(NewsItems, "dedup_hash"))
    case Named(n) =>
      && !i.unique
      && (|| (n == "ix_audit_entity_created" && t == AuditLogs && i.columns == ["entity", "created_at"])
          || (n == "ix_analysis_asset_generated" && t == AnalysisResults && i.columns == ["asset_id", "generated_at"])
          || (n == "ix_price_asset_tf_ts" && t == HistoricalPrices
              && i.columns == ["asset_id", "timeframe", "timestamp"])
          || (n == "ix_indicator_lookup" && t == TechnicalIndicators
              && i.columns == ["asset_id", "timeframe", "indicator_name", "timestamp"])
          || (n == "ix_ai_message_created" && t == AiMessages && i.columns == ["created_at"])
          || (n == "ix_news_asset_published" && t == NewsItems && i.columns == ["asset_id", "published_at"]))
  }

  lemma WellNamed0(i: nat)
    requires i < 8
    ensures WellNamed(i)
  {
    EmailAndHash();
  }

  lemma WellNamed8(i: nat)
    requires 8 <= i < 16
    ensures WellNamed(i)
  {}

  lemma WellNamed16(i: nat)
    requires 16 <= i < 19
    ensures WellNamed(i)
  {}

  lemma WellNamed19(i: nat)
    requires 19 <= i < 22
    ensures WellNamed(i)
  {}

  lemma WellNamed22()
    ensures WellNamed(22)
  {
    NewsColumnsDiffer();
  }

  lemma WellNamed23(i: nat)
    requires 23 <= i < 27
    ensures WellNamed(i)
  {}

  lemma WellNamed27(i: nat)
    requires 27 <= i < TABLES
    ensures WellNamed(i)
  {}

  lemma EmailAndHash()
    ensures "ticker" != "email" && "next_run_at" != "email"
  {
    assert |"ticker"| == 6 && |"email"| == 5 && |"next_run_at"| == 11;
  }

  lemma IndexesAreWellNamed(i: nat)
    requires i < TABLES
    ensures WellNamed(i)
  {
    if i < 8 { WellNamed0(i); }
    else if i < 16 { WellNamed8(i); }
    else if i < 19 { WellNamed16(i); }
    else if i < 22 { WellNamed19(i); }
    else if i == 22 { WellNamed22(); }
    else if i < 27 { WellNamed23(i); }
    else { WellNamed27(i); }
  }

  /** Which tables refer to a table. */
  function Referrers(t: TableName): set<TableName> {
    match t
    case Users => {AiConversations, Notifications, Portfolios, TickerNewsSchedules, Watchlists, InvestmentJournal}
    case Assets =>
      {AnalysisResults, FeatureSnapshots, FundamentalMetrics, HistoricalPrices, ProviderIngestionRuns,
       TechnicalIndicators, TickerNewsSchedules, NewsItems, PortfolioHoldings, WatchlistItems, InvestmentJournal}
    case SchedulerJobs => {JobQueue}
    case KnowledgeBase => {KnowledgeChunks}
    case AiConversations => {AiMessages}
    case PromptTemplates => {AiMessages}
    case AiProviders => {AiMessages}
    case TickerNewsSchedules => {NewsItems}
    case Portfolios => {PortfolioAnalysis, PortfolioHoldings, RiskAssessments}
    case AnalysisResults => {Recommendations, RiskAssessments}
    case Watchlists => {WatchlistItems}
    case Recommendations => {InvestmentJournal}
    case NewsItems => {NewsEmbeddings, SentimentScores}
    case _ => {}
  }

  /** The lists of targets are this relation read the other way round. */
  lemma TargetsAreReferrers(i: nat, t: TableName)
    requires i < TABLES
    ensures t in Spec(i).targets <==> Spec(i).table in Referrers(t)
  {
    if i < 8 { FirstTargets(i, t); } else if i < 12 { LowTargets(i, t); } else if i < 16 { MoreTargets(i, t); }
    else if i < 20 { MiddleTargets(i, t); } else if i < 24 { LaterTargets(i, t); }
    else if i < 28 { HighTargets(i, t); } else { LastTargets(i, t); }
  }

  lemma FirstTargets(i: nat, t: TableName)
    requires i < 8
    ensures t in Spec(i).targets <==> Spec(i).table in Referrers(t)
  {}

  lemma LowTargets(i: nat, t: TableName)
    requires 8 <= i < 12
    ensures t in Spec(i).targets <==> Spec(i).table in Referrers(t)
  {}

  lemma MoreTargets(i: nat, t: TableName)
    requires 12 <= i < 16
    ensures t in Spec(i).targets <==> Spec(i).table in Referrers(t)
  {}

  lemma MiddleTargets(i: nat, t: TableName)
    requires 16 <= i < 20
    ensures t in Spec(i).targets <==> Spec(i).table in Referrers(t)
  {}

  lemma LaterTargets(i: nat, t: TableName)
    requires 20 <= i < 24
    ensures t in Spec(i).targets <==> Spec(i).table in Referrers(t)
  {}

  lemma HighTargets(i: nat, t: TableName)
    requires 24 <= i < 28
    ensures t in Spec(i).targets <==> Spec(i).table in Referrers(t)
  {}

  lemma LastTargets(i: nat, t: TableName)
    requires 28 <= i < TABLES
    ensures t in Spec(i).targets <==> Spec(i).table in Referrers(t)
  {}

  /**
   * What the first revision leaves: every table as it was defined, every index as it was listed, and
   * among them an address and a news item's hash that no two rows can share.
   */
  lemma InitialUpgradeBuilds(db: Database, shapes: Shapes)
    requires WellFormed(db) && Unclaimed(db, Specs()) && Fitting(Specs(), shapes)
    ensures Migrate(db, Upgrade(shapes)).Some?
    ensures var now := Migrate(db, Upgrade(shapes)).value;
            && (forall i :: 0 <= i < TABLES ==> HasShape(Spec(i), shapes, now.tables))
            && (forall i, a :: 0 <= i < TABLES && 0 <= a < |Spec(i).indexes| ==> HasIndex(Spec(i), a, now.indexes))
            && Auto(Users, "email") in now.indexes
            && now.indexes[Auto(Users, "email")] == Index(Users, ["email"], true)
            && Auto(NewsItems, "dedup_hash") in now.indexes
            && now.indexes[Auto(NewsItems, "dedup_hash")] == Index(NewsItems, ["dedup_hash"], true)
  {
    SpecsAreOrderly();
    UpApplies(db, Specs(), shapes);
    BuiltAsListed(shapes, Migrate(db, Upgrade(shapes)).value);
    UniqueOnes(Migrate(db, Upgrade(shapes)).value.indexes);
  }

  lemma UniqueOnes(indexes: map<IndexName, Index>)
    requires forall i, a :: 0 <= i < TABLES && 0 <= a < |Spec(i).indexes| ==> HasIndex(Spec(i), a, indexes)
    ensures Auto(Users, "email") in indexes && indexes[Auto(Users, "email")] == Index(Users, ["email"], true)
    ensures Auto(NewsItems, "dedup_hash") in indexes
    ensures indexes[Auto(NewsItems, "dedup_hash")] == Index(NewsItems, ["dedup_hash"], true)
  {
    EmailIsUnique();
    HashIsUnique();
    assert HasIndex(Spec(7), 0, indexes);
    assert HasIndex(Spec(22), 2, indexes);
  }

  lemma EmailIsUnique()
    ensures |Spec(7).indexes| == 1 && Spec(7).table == Users
    ensures Spec(7).indexes[0] == NewIndex(Auto(Users, "email"), ["email"], true)
  {}

  lemma HashIsUnique()
    ensures |Spec(22).indexes| == 4 && Spec(22).table == NewsItems
    ensures Spec(22).indexes[2] == NewIndex(Auto(NewsItems, "dedup_hash"), ["dedup_hash"], true)
  {}

  lemma BuiltAsListed(shapes: Shapes, now: Database)
    requires Shaped(Specs(), shapes, now.tables) && Indexed(Specs(), now.indexes)
    ensures forall i :: 0 <= i < TABLES ==> HasShape(Spec(i), shapes, now.tables)
    ensures forall i, a :: 0 <= i < TABLES && 0 <= a < |Spec(i).indexes| ==> HasIndex(Spec(i), a, now.indexes)
  {
    forall i | 0 <= i < TABLES ensures HasShape(Spec(i), shapes, now.tables) {
      assert HasShape(Specs()[i], shapes, now.tables);
    }
    forall i, a | 0 <= i < TABLES && 0 <= a < |Spec(i).indexes| ensures HasIndex(Spec(i), a, now.indexes) {
      assert HasIndex(Specs()[i], a, now.indexes);
    }
  }
}
