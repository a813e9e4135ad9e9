/** The rows the revisions rewrite, carried along any walk up and down the chain of revisions. */
module RowWalk {
  import opened Ascii
  import opened Options

  /** The chain, oldest first. A database is at position `p` when the first `p` are applied. */
  const CHAIN: seq<string> := [
    "60b76ad1dd80", "34363225ea8e", "9bdcfc488a3b", "371022dfaa5b", "7ea3e37e1e87", "430fd028114c",
    "fb6d29bee29c", "df94aedf2f33", "a1c7e40b93d2", "c3f81a6e02b7", "d5b2914c7ae0", "e7d3b02f5a91",
    "f2a91c47b608", "a4e18d6c37f2", "b83c9e1d4507", "c50f7a2b91de", "a1c8e4f70d23", "b4d1f8a2c907"]

  /** The positions from which a revision's effect is in force. */
  const TABLES_EXIST := 1
  const ENUMS_BY_VALUE := 3
  const TRANSLATED := 8
  const STATUSED := 10
  const REPAIRED := 11

  datatype Status = Active | Suspended | Banned

  /** An account row: a flag before the status revision, a status from it on. */
  datatype Account = Flagged(active: bool) | Stated(status: Status)

  /** One column of one row. */
  datatype Cell = Cell(table: string, column: string, row: nat)

  /** The reasoning stored with each rendering; `None` where the rendering has none. */
  datatype Wording = Wording(language: string, translations: map<string, Option<string>>)

  datatype Recommendation = Recommendation(reasoning: string, wording: Option<Wording>)

  datatype Rows = Rows(
    at: nat,
    users: map<nat, Account>,
    cells: map<Cell, Option<string>>,
    recommendations: map<nat, Recommendation>)

  const ENUM_COLUMNS: seq<(string, string)> := [
    ("users", "role"),
    ("portfolio_holdings", "input_method"),
    ("ticker_news_schedules", "status"),
    ("recommendations", "label"),
    ("recommendations", "horizon"),
    ("audit_logs", "actor_type"),
    ("job_queue", "status"),
    ("provider_ingestion_runs", "status")]

  // --- the updates -----------------------------------------------------------

  /** `UPDATE table SET column = fold(column) WHERE column IS NOT NULL`. */
  function Fold(cells: map<Cell, Option<string>>, table: string, column: string, fold: string -> string)
    : map<Cell, Option<string>>
  {
    map c | c in cells ::
      if c.table == table && c.column == column && cells[c].Some? then Some(fold(cells[c].value)) else cells[c]
  }

  /** The update run over the first `n` listed columns. */
  function FoldListed(cells: map<Cell, Option<string>>, fold: string -> string, n: nat): map<Cell, Option<string>>
    requires n <= |ENUM_COLUMNS|
  {
    if n == 0 then cells
    else Fold(FoldListed(cells, fold, n - 1), ENUM_COLUMNS[n - 1].0, ENUM_COLUMNS[n - 1].1, fold)
  }

  function FoldAll(cells: map<Cell, Option<string>>, fold: string -> string): map<Cell, Option<string>> {
    FoldListed(cells, fold, |ENUM_COLUMNS|)
  }

  /** The new column's default, then `SET status = 'suspended' WHERE is_active = false`. */
  function ToStatus(a: Account): Account {
    match a
    case Flagged(active) => Stated(if active then Active else Suspended)
    case Stated(_) => a
  }

  /** The old column's default, then `SET is_active = false WHERE status <> 'active'`. */
  function ToFlag(a: Account): Account {
    match a
    case Flagged(_) => a
    case Stated(status) => Flagged(status == Active)
  }

  /** The row a translator asked for English handed back unchanged. */
  predicate Mislabelled(r: Recommendation) {
    r.wording.Some? && "en" in r.wording.value.translations
    && r.wording.value.translations["en"] == Some(r.reasoning)
  }

  function RepairRow(r: Recommendation): Recommendation {
    if Mislabelled(r) then r.(wording := Some(Wording("en", map[]))) else r
  }

  function Repair(rows: map<nat, Recommendation>): map<nat, Recommendation> {
    map i | i in rows :: RepairRow(rows[i])
  }

  function Up(s: Rows): Rows {
    if s.at >= |CHAIN| then s
    else
      var next := s.(at := s.at + 1);
      if next.at == ENUMS_BY_VALUE then next.(cells := FoldAll(s.cells, Lowercase))
      else if next.at == TRANSLATED then
        next.(recommendations := map i | i in s.recommendations ::
                s.recommendations[i].(wording := Some(Wording("id", map[]))))
      else if next.at == STATUSED then next.(users := map u | u in s.users :: ToStatus(s.users[u]))
      else if next.at == REPAIRED then next.(recommendations := Repair(s.recommendations))
      else next
  }

  function Down(s: Rows): Rows {
    if s.at == 0 then s
    else
      var next := s.(at := s.at - 1);
      if s.at == TABLES_EXIST then Rows(0, map[], map[], map[])
      else if s.at == ENUMS_BY_VALUE then next.(cells := FoldAll(s.cells, Uppercase))
      else if s.at == TRANSLATED then
        next.(recommendations := map i | i in s.recommendations :: s.recommendations[i].(wording := None))
      else if s.at == STATUSED then next.(users := map u | u in s.users :: ToFlag(s.users[u]))
      else next
  }

  datatype Move = Upgrade | Downgrade

  function Take(s: Rows, m: Move): Rows {
    match m case Upgrade => Up(s) case Downgrade => Down(s)
  }

  function Walk(s: Rows, moves: seq<Move>): Rows {
    if |moves| == 0 then s else Take(Walk(s, moves[..|moves| - 1]), moves[|moves| - 1])
  }

  /** The walk never goes below a position. */
  predicate Stays(s: Rows, moves: seq<Move>, floor: nat) {
    s.at >= floor &&
    (|moves| == 0 || (Stays(s, moves[..|moves| - 1], floor) && Walk(s, moves).at >= floor))
  }

  // --- accounts --------------------------------------------------------------

  /** Rows hold what their position's schema can hold. */
  ghost predicate Fits(s: Rows) {
    && s.at <= |CHAIN|
    && (forall u :: u in s.users ==> (s.users[u].Stated? <==> s.at >= STATUSED))
    && (forall i :: i in s.recommendations ==> (s.recommendations[i].wording.Some? <==> s.at >= TRANSLATED))
  }

  predicate Off(a: Account) {
    match a case Flagged(active) => !active case Stated(status) => status != Active
  }

  lemma TakeFits(s: Rows, m: Move)
    requires Fits(s)
    ensures Fits(Take(s, m))
  {}

  lemma {:induction false} WalkFits(s: Rows, moves: seq<Move>)
    requires Fits(s)
    ensures Fits(Walk(s, moves))
  {
    if |moves| > 0 {
      WalkFits(s, moves[..|moves| - 1]);
      TakeFits(Walk(s, moves[..|moves| - 1]), moves[|moves| - 1]);
    }
  }

  /**
   * However the chain is walked from the first revision up, every account is kept, and is off
   * exactly when it was off.
   */
  lemma {:induction false} OffStaysOff(s: Rows, moves: seq<Move>)
    requires Fits(s) && Stays(s, moves, TABLES_EXIST)
    ensures Walk(s, moves).users.Keys == s.users.Keys
    ensures forall u :: u in s.users ==> (Off(Walk(s, moves).users[u]) <==> Off(s.users[u]))
  {
    if |moves| > 0 {
      OffStaysOff(s, moves[..|moves| - 1]);
      OffStaysOffOnce(Walk(s, moves[..|moves| - 1]), moves[|moves| - 1]);
    }
  }

  lemma OffStaysOffOnce(s: Rows, m: Move)
    requires s.at >= TABLES_EXIST && Take(s, m).at >= TABLES_EXIST
    ensures Take(s, m).users.Keys == s.users.Keys
    ensures forall u :: u in s.users ==> (Off(Take(s, m).users[u]) <==> Off(s.users[u]))
  {}

  /** What an account's status becomes once the flag has had to carry it. */
  function Collapsed(status: Status): Status {
    if status == Active then Active else Suspended
  }

  /**
   * A walk between two positions with statuses keeps each one exactly, unless it dipped below the
   * status revision; then a ban has become a suspension and the other two are unchanged.
   */
  lemma {:induction false} StatusAfterWalk(s: Rows, moves: seq<Move>)
    requires Fits(s) && Stays(s, moves, TABLES_EXIST) && s.at >= STATUSED
    ensures forall u :: u in s.users ==>
              u in Walk(s, moves).users &&
              Walk(s, moves).users[u] ==
              if Walk(s, moves).at < STATUSED then Flagged(s.users[u].status == Active)
              else if Stays(s, moves, STATUSED) then s.users[u]
              else Stated(Collapsed(s.users[u].status))
  {
    if |moves| > 0 {
      StatusAfterWalk(s, moves[..|moves| - 1]);
      WalkFits(s, moves[..|moves| - 1]);
    }
  }

  // --- enum columns ----------------------------------------------------------

  predicate Listed(c: Cell) {
    (c.table, c.column) in ENUM_COLUMNS
  }

  function Folded(v: Option<string>, fold: string -> string): Option<string> {
    if v.Some? then Some(fold(v.value)) else None
  }

  ghost predicate Idempotent(fold: string -> string) {
    forall v :: fold(fold(v)) == fold(v)
  }

  lemma FoldIs(cells: map<Cell, Option<string>>, table: string, column: string, fold: string -> string)
    ensures Fold(cells, table, column, fold).Keys == cells.Keys
    ensures forall c :: c in cells ==>
              Fold(cells, table, column, fold)[c] ==
              if (c.table, c.column) == (table, column) then Folded(cells[c], fold) else cells[c]
  {}

  /** The loop over listed columns folds exactly the cells of those columns, and no row is lost. */
  lemma {:induction false} FoldListedIs(cells: map<Cell, Option<string>>, fold: string -> string, n: nat)
    requires n <= |ENUM_COLUMNS| && Idempotent(fold)
    ensures FoldListed(cells, fold, n).Keys == cells.Keys
    ensures forall c :: c in cells ==>
              FoldListed(cells, fold, n)[c] ==
              if (c.table, c.column) in ENUM_COLUMNS[..n] then Folded(cells[c], fold) else cells[c]
  {
    if n > 0 {
      var one := ENUM_COLUMNS[n - 1];
      var before := FoldListed(cells, fold, n - 1);
      FoldListedIs(cells, fold, n - 1);
      FoldIs(before, one.0, one.1, fold);
      OneMore(ENUM_COLUMNS, n);
      forall c | c in cells
        ensures FoldListed(cells, fold, n)[c] ==
                if (c.table, c.column) in ENUM_COLUMNS[..n] then Folded(cells[c], fold) else cells[c]
      {
        assert FoldListed(cells, fold, n)[c] ==
               if (c.table, c.column) == one then Folded(before[c], fold) else before[c];
      }
    }
  }

  lemma {:induction false} FoldKeepsRows(cells: map<Cell, Option<string>>, fold: string -> string, n: nat)
    requires n <= |ENUM_COLUMNS|
    ensures FoldListed(cells, fold, n).Keys == cells.Keys
  {
    if n > 0 {
      FoldKeepsRows(cells, fold, n - 1);
    }
  }

  lemma OneMore(columns: seq<(string, string)>, n: nat)
    requires 0 < n <= |columns|
    ensures forall c :: c in columns[..n] <==> c in columns[..n - 1] || c == columns[n - 1]
  {
    assert columns[..n] == columns[..n - 1] + [columns[n - 1]];
  }

  lemma FoldAllIs(cells: map<Cell, Option<string>>, fold: string -> string)
    requires Idempotent(fold)
    ensures FoldAll(cells, fold).Keys == cells.Keys
    ensures forall c :: c in cells ==>
              FoldAll(cells, fold)[c] == if Listed(c) then Folded(cells[c], fold) else cells[c]
  {
    FoldListedIs(cells, fold, |ENUM_COLUMNS|);
    assert ENUM_COLUMNS[..|ENUM_COLUMNS|] == ENUM_COLUMNS;
  }

  lemma FoldsAreIdempotent()
    ensures Idempotent(Lowercase) && Idempotent(Uppercase)
  {
    forall v: string ensures Lowercase(Lowercase(v)) == Lowercase(v) && Uppercase(Uppercase(v)) == Uppercase(v) {
      FoldsForget(v);
    }
  }

  /** The re-casing upgrade can be run again without effect. */
  lemma RecasingIsIdempotent(cells: map<Cell, Option<string>>)
    ensures FoldAll(FoldAll(cells, Lowercase), Lowercase) == FoldAll(cells, Lowercase)
  {
    FoldsAreIdempotent();
    FoldAllIs(cells, Lowercase);
    FoldAllIs(FoldAll(cells, Lowercase), Lowercase);
    forall c | c in cells && cells[c].Some? ensures Lowercase(Lowercase(cells[c].value)) == Lowercase(cells[c].value) {
      FoldsForget(cells[c].value);
    }
  }

  /** A stored enum in the form a position calls for: the member name below, its value from there on. */
  function Form(at: nat, name: Option<string>): Option<string> {
    Folded(name, if at < ENUMS_BY_VALUE then Uppercase else Lowercase)
  }

  ghost predicate InForm(s: Rows) {
    forall c :: c in s.cells && Listed(c) ==> s.cells[c] == Form(s.at, s.cells[c])
  }

  /**
   * From rows in the form their position calls for, any walk that keeps the tables leaves every listed cell in the form
   * of the position it reaches, spelling the same name; every other cell is untouched.
   */
  lemma {:induction false} EnumsFollowTheWalk(s: Rows, moves: seq<Move>)
    requires InForm(s) && Stays(s, moves, TABLES_EXIST)
    ensures Walk(s, moves).cells.Keys == s.cells.Keys
    ensures forall c :: c in s.cells ==>
              Walk(s, moves).cells[c] == if Listed(c) then Form(Walk(s, moves).at, s.cells[c]) else s.cells[c]
  {
    if |moves| > 0 {
      EnumsFollowTheWalk(s, moves[..|moves| - 1]);
      FormFollowsOneMove(s.cells, Walk(s, moves[..|moves| - 1]), moves[|moves| - 1]);
    }
  }

  /** Cells hold the given names in the form of the position. */
  ghost predicate Spells(s: Rows, names: map<Cell, Option<string>>) {
    && s.cells.Keys == names.Keys
    && forall c :: c in names ==> s.cells[c] == if Listed(c) then Form(s.at, names[c]) else names[c]
  }

  lemma RefoldSpells(names: map<Cell, Option<string>>, at: nat, to: nat, cells: map<Cell, Option<string>>)
    requires Spells(Rows(at, map[], cells, map[]), names)
    ensures var fold := if to < ENUMS_BY_VALUE then Uppercase else Lowercase;
            Spells(Rows(to, map[], FoldAll(cells, fold), map[]), names)
  {
    FoldsAreIdempotent();
    var fold := if to < ENUMS_BY_VALUE then Uppercase else Lowercase;
    FoldAllIs(cells, fold);
    forall c | c in names && Listed(c) ensures FoldAll(cells, fold)[c] == Form(to, names[c]) {
      if names[c].Some? { FoldsForget(names[c].value); }
    }
  }

  lemma FormFollowsOneMove(names: map<Cell, Option<string>>, s: Rows, m: Move)
    requires Spells(s, names) && Take(s, m).at >= TABLES_EXIST
    ensures Spells(Take(s, m), names)
  {
    CellsAfterMove(s, m);
    if m == Upgrade && s.at + 1 == ENUMS_BY_VALUE {
      RefoldSpells(names, s.at, ENUMS_BY_VALUE, s.cells);
    } else if m == Downgrade && s.at == ENUMS_BY_VALUE {
      RefoldSpells(names, s.at, ENUMS_BY_VALUE - 1, s.cells);
    } else {
      assert s.at < ENUMS_BY_VALUE <==> Take(s, m).at < ENUMS_BY_VALUE;
    }
  }

  lemma CellsAfterMove(s: Rows, m: Move)
    requires Take(s, m).at >= TABLES_EXIST
    ensures Take(s, m).cells ==
            if m == Upgrade && s.at + 1 == ENUMS_BY_VALUE then FoldAll(s.cells, Lowercase)
            else if m == Downgrade && s.at == ENUMS_BY_VALUE then FoldAll(s.cells, Uppercase)
            else s.cells
  {
    assert |CHAIN| == 18;
  }

  /** The eight columns whose form the walk decides. */
  lemma EnumColumnsAre(c: Cell)
    ensures Listed(c) <==>
            || (c.table == "users" && c.column == "role")
            || (c.table == "portfolio_holdings" && c.column == "input_method")
            || (c.table == "ticker_news_schedules" && c.column == "status")
            || (c.table == "recommendations" && (c.column == "label" || c.column == "horizon"))
            || (c.table == "audit_logs" && c.column == "actor_type")
            || (c.table == "job_queue" && c.column == "status")
            || (c.table == "provider_ingestion_runs" && c.column == "status")
  {
    var key := (c.table, c.column);
    assert key in ENUM_COLUMNS <==>
           exists i :: 0 <= i < 8 && ENUM_COLUMNS[i] == key;
  }

  /** So a stored recommendation label, say, is upper case up to the second revision and lower case after it. */
  lemma LabelsFollowTheWalk(s: Rows, moves: seq<Move>, row: nat, name: string)
    requires InForm(s) && Stays(s, moves, 1)
    requires var c := Cell("recommendations", "label", row); c in s.cells && s.cells[c] == Some(name)
    ensures var c := Cell("recommendations", "label", row);
            && c in Walk(s, moves).cells
            && Walk(s, moves).cells[c] ==
               Some(if Walk(s, moves).at <= 2 then Uppercase(name) else Lowercase(name))
  {
    EnumColumnsAre(Cell("recommendations", "label", row));
    EnumsFollowTheWalk(s, moves);
  }

  /** The revisions the positions stand for. */
  lemma PositionsAre()
    ensures CHAIN[TABLES_EXIST - 1] == "60b76ad1dd80" && CHAIN[ENUMS_BY_VALUE - 1] == "9bdcfc488a3b"
    ensures CHAIN[TRANSLATED - 1] == "df94aedf2f33" && CHAIN[STATUSED - 1] == "c3f81a6e02b7"
    ensures CHAIN[REPAIRED - 1] == "d5b2914c7ae0" && CHAIN[3] == "371022dfaa5b" && CHAIN[17] == "b4d1f8a2c907"
    ensures |CHAIN| == 18
  {}

  /** So a walk that returns to where it began returns every value, whatever it crossed. */
  lemma EnumsReturn(s: Rows, moves: seq<Move>)
    requires InForm(s) && Stays(s, moves, TABLES_EXIST) && Walk(s, moves).at == s.at
    ensures Walk(s, moves).cells == s.cells
  {
    EnumsFollowTheWalk(s, moves);
  }

  // --- recommendations -------------------------------------------------------

  ghost predicate NoneMislabelled(rows: map<nat, Recommendation>) {
    forall i :: i in rows ==> !Mislabelled(rows[i])
  }

  /** The repair mends every mislabelled row, leaves the others alone, and has nothing to do twice. */
  lemma RepairMends(rows: map<nat, Recommendation>)
    ensures NoneMislabelled(Repair(rows))
    ensures Repair(rows) == rows <==> NoneMislabelled(rows)
    ensures Repair(Repair(rows)) == Repair(rows)
    ensures forall i :: i in rows && !Mislabelled(rows[i]) ==> Repair(rows)[i] == rows[i]
    ensures forall i :: i in rows && Mislabelled(rows[i]) ==>
              Repair(rows)[i] == Recommendation(rows[i].reasoning, Some(Wording("en", map[])))
  {
    if Repair(rows) == rows {
      forall i | i in rows ensures !Mislabelled(rows[i]) {
        assert Repair(rows)[i] == rows[i];
      }
    }
  }

  /**
   * The update row by row: a row whose English rendering is its own reasoning says so from then on and
   * loses its renderings; every other row keeps its label and its renderings.
   */
  lemma RepairReads(rows: map<nat, Recommendation>, i: nat)
    requires i in rows
    ensures i in Repair(rows) && Repair(rows)[i].reasoning == rows[i].reasoning
    ensures match rows[i].wording
            case None => Repair(rows)[i] == rows[i]
            case Some(w) =>
              if "en" in w.translations && w.translations["en"] == Some(rows[i].reasoning)
              then Repair(rows)[i].wording == Some(Wording("en", map[]))
              else Repair(rows)[i] == rows[i]
  {}

  /** After the repair no row anywhere calls its own reasoning a translation into English. */
  lemma NoReasoningCalledEnglish(s: Rows, moves: seq<Move>, i: nat)
    requires Fits(s) && Stays(s, moves, TRANSLATED) && Repairs(s, moves) && i in Walk(s, moves).recommendations
    ensures var r := Walk(s, moves).recommendations[i];
            r.wording.Some? && "en" in r.wording.value.translations ==>
              r.wording.value.translations["en"] != Some(r.reasoning)
  {
    WordingsAfterWalk(s, moves);
    RepairMends(s.recommendations);
    assert !Mislabelled(Walk(s, moves).recommendations[i]);
  }

  /** The walk crosses the repair on its way up at least once. */
  predicate Repairs(s: Rows, moves: seq<Move>) {
    |moves| > 0 &&
    (Repairs(s, moves[..|moves| - 1]) ||
     (moves[|moves| - 1] == Upgrade && Walk(s, moves[..|moves| - 1]).at + 1 == REPAIRED))
  }

  /**
   * A walk that keeps the columns wordings are stored in changes them only by the repair, and
   * however often it crosses that, as crossing it once would.
   */
  lemma {:induction false} WordingsAfterWalk(s: Rows, moves: seq<Move>)
    requires Fits(s) && Stays(s, moves, TRANSLATED)
    ensures Walk(s, moves).recommendations ==
            if Repairs(s, moves) then Repair(s.recommendations) else s.recommendations
  {
    if |moves| > 0 {
      var before := Walk(s, moves[..|moves| - 1]);
      WordingsAfterWalk(s, moves[..|moves| - 1]);
      WordingsAfterMove(before, moves[|moves| - 1]);
      RepairMends(s.recommendations);
    }
  }

  lemma WordingsAfterMove(s: Rows, m: Move)
    requires s.at >= TRANSLATED && Take(s, m).at >= TRANSLATED
    ensures Take(s, m).recommendations ==
            if m == Upgrade && s.at + 1 == REPAIRED then Repair(s.recommendations) else s.recommendations
  {
    if s.at == |CHAIN| { assert REPAIRED <= |CHAIN|; }
  }

  /** So once repaired, wordings survive every such walk. */
  lemma WordingsSurvive(s: Rows, moves: seq<Move>)
    requires Fits(s) && NoneMislabelled(s.recommendations) && Stays(s, moves, TRANSLATED)
    ensures Walk(s, moves).recommendations == s.recommendations
  {
    WordingsAfterWalk(s, moves);
    RepairMends(s.recommendations);
  }

  /** Every wording is gone below the columns' revision, and the default from it on. */
  ghost predicate Blank(s: Rows, from: map<nat, Recommendation>) {
    && s.recommendations.Keys == from.Keys
    && forall i :: i in from ==>
         s.recommendations[i] ==
         Recommendation(from[i].reasoning, if s.at < TRANSLATED then None else Some(Wording("id", map[])))
  }

  lemma BlankStays(s: Rows, m: Move, from: map<nat, Recommendation>)
    requires Blank(s, from) && s.at >= TABLES_EXIST && Take(s, m).at >= TABLES_EXIST
    ensures Blank(Take(s, m), from)
  {
    if m == Upgrade && s.at + 1 == REPAIRED {
      forall i | i in from ensures RepairRow(s.recommendations[i]) == s.recommendations[i] {}
    }
  }

  lemma DroppedIsBlank(s: Rows, m: Move, from: map<nat, Recommendation>)
    requires s.at >= TRANSLATED > Take(s, m).at >= TABLES_EXIST
    requires s.recommendations.Keys == from.Keys
    requires forall i :: i in from ==> s.recommendations[i].reasoning == from[i].reasoning
    ensures Blank(Take(s, m), from)
  {}

  /** A walk that gives those columns up and takes them back has every label reset. */
  lemma {:induction false} WordingsReset(s: Rows, moves: seq<Move>)
    requires Fits(s) && s.at >= TRANSLATED && Stays(s, moves, TABLES_EXIST) && !Stays(s, moves, TRANSLATED)
    ensures Blank(Walk(s, moves), s.recommendations)
  {
    var last := |moves| - 1;
    var before := Walk(s, moves[..last]);
    if Stays(s, moves[..last], TRANSLATED) {
      ReasoningStays(s, moves[..last]);
      DroppedIsBlank(before, moves[last], s.recommendations);
    } else {
      WordingsReset(s, moves[..last]);
      BlankStays(before, moves[last], s.recommendations);
    }
  }

  lemma {:induction false} ReasoningStays(s: Rows, moves: seq<Move>)
    requires Stays(s, moves, TABLES_EXIST)
    ensures Walk(s, moves).recommendations.Keys == s.recommendations.Keys
    ensures forall i :: i in s.recommendations ==>
              Walk(s, moves).recommendations[i].reasoning == s.recommendations[i].reasoning
  {
    if |moves| > 0 {
      ReasoningStays(s, moves[..|moves| - 1]);
      ReasoningStaysOnce(Walk(s, moves[..|moves| - 1]), moves[|moves| - 1]);
    }
  }

  lemma ReasoningStaysOnce(s: Rows, m: Move)
    requires Take(s, m).at >= TABLES_EXIST && s.at >= TABLES_EXIST
    ensures Take(s, m).recommendations.Keys == s.recommendations.Keys
    ensures forall i :: i in s.recommendations ==>
              Take(s, m).recommendations[i].reasoning == s.recommendations[i].reasoning
  {}

  lemma UpgradeFacts(s: Rows)
    ensures s.at >= TABLES_EXIST ==>
              && Up(s).users.Keys == s.users.Keys
              && forall u :: u in s.users ==> (Off(Up(s).users[u]) <==> Off(s.users[u]))
    ensures Up(s).at == REPAIRED && s.at < REPAIRED ==> NoneMislabelled(Up(s).recommendations)
  {
    if s.at >= TABLES_EXIST {
      OffStaysOffOnce(s, Move.Upgrade);
    }
    RepairMends(s.recommendations);
  }

  // --- the rows in place -----------------------------------------------------

  /** The tables themselves, rewritten where they stand. */
  class Tables {
    var at: nat
    var users: map<nat, Account>
    var cells: map<Cell, Option<string>>
    var recommendations: map<nat, Recommendation>

    ghost function View(): Rows
      reads this
    {
      Rows(at, users, cells, recommendations)
    }

    constructor (rows: Rows)
      ensures View() == rows
    {
      at, users, cells, recommendations := rows.at, rows.users, rows.cells, rows.recommendations;
    }

    method FoldEnums(fold: string -> string)
      modifies `cells
      ensures cells == FoldAll(old(cells), fold)
    {
      for i := 0 to |ENUM_COLUMNS|
        invariant cells == FoldListed(old(cells), fold, i)
      {
        var (table, column) := ENUM_COLUMNS[i];
        cells := Fold(cells, table, column, fold);
      }
    }

    /** Nobody is switched on or off, and reaching the repair leaves no row mislabelled. */
    method Upgrade()
      modifies this
      ensures View() == Up(old(View()))
      ensures old(at) >= TABLES_EXIST ==>
                users.Keys == old(users).Keys && forall u :: u in users ==> (Off(users[u]) <==> Off(old(users)[u]))
      ensures at == REPAIRED && old(at) < REPAIRED ==> NoneMislabelled(recommendations)
    {
      UpgradeFacts(View());
      if at >= |CHAIN| {
        return;
      }
      at := at + 1;
      if at == ENUMS_BY_VALUE {
        FoldEnums(Lowercase);
      } else if at == TRANSLATED {
        recommendations := map i | i in recommendations ::
          recommendations[i].(wording := Some(Wording("id", map[])));
      } else if at == STATUSED {
        users := map u | u in users :: ToStatus(users[u]);
      } else if at == REPAIRED {
        recommendations := Repair(recommendations);
      }
    }

    /** Above the first revision nobody is switched on or off on the way down either, and no row is lost. */
    method Downgrade()
      modifies this
      ensures View() == Down(old(View()))
      ensures old(at) > TABLES_EXIST ==>
                && users.Keys == old(users).Keys && recommendations.Keys == old(recommendations).Keys
                && cells.Keys == old(cells).Keys
                && forall u :: u in users ==> (Off(users[u]) <==> Off(old(users)[u]))
    {
      FoldKeepsRows(cells, Uppercase, |ENUM_COLUMNS|);
      if at > TABLES_EXIST {
        OffStaysOffOnce(View(), Move.Downgrade);
        ReasoningStaysOnce(View(), Move.Downgrade);
      }
      if at == 0 {
        return;
      }
      if at == TABLES_EXIST {
        users, cells, recommendations := map[], map[], map[];
      } else if at == ENUMS_BY_VALUE {
        FoldEnums(Uppercase);
      } else if at == TRANSLATED {
        recommendations := map i | i in recommendations :: recommendations[i].(wording := None);
      } else if at == STATUSED {
        users := map u | u in users :: ToFlag(users[u]);
      }
      at := at - 1;
    }

    /** Whatever is crossed on the way, nobody is switched on or off and the rows fit where they end up. */
    method Migrate(moves: seq<Move>)
      modifies this
      ensures View() == Walk(old(View()), moves)
      ensures Fits(old(View())) ==> Fits(View())
      ensures Fits(old(View())) && Stays(old(View()), moves, TABLES_EXIST) ==>
                && users.Keys == old(users).Keys
                && (forall u :: u in users ==> (Off(users[u]) <==> Off(old(users)[u])))
                && recommendations.Keys == old(recommendations).Keys
      ensures Fits(old(View())) && Stays(old(View()), moves, TRANSLATED) && NoneMislabelled(old(recommendations)) ==>
                recommendations == old(recommendations)
    {
      ghost var before := View();
      if Fits(before) {
        WalkFits(before, moves);
        if Stays(before, moves, TABLES_EXIST) {
          OffStaysOff(before, moves);
          ReasoningStays(before, moves);
        }
        if Stays(before, moves, TRANSLATED) && NoneMislabelled(before.recommendations) {
          WordingsSurvive(before, moves);
        }
      }
      for i := 0 to |moves|
        invariant View() == Walk(old(View()), moves[..i])
      {
        assert moves[..i + 1][..i] == moves[..i];
        match moves[i] {
          case Upgrade => Upgrade();
          case Downgrade => Downgrade();
        }
      }
      assert moves[..|moves|] == moves;
    }
  }
}
