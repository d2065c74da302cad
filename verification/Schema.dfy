/** Databases, and the schema operations that migrations are made of. An operation
    fails, as the server would, when the schema or the stored rows do not allow it. */
module Schema {
  import opened Prelude

  datatype Tbl =
    | Projects | Tasks | Runs | Prs | Reviews | Questions | Decisions | Artifacts
    | Learnings | Debt | Metrics | Retros | Risks | TaskEvents | Notes

  datatype Col =
    | Id | ProjectId | TaskId | PrId | DecisionId | RetroId | Name | Repo | Status | Brief | Title | Spec
    | Blocked | BlockedReason | Role | ModelTier | PrdRef | Branch | DependsOn | CreatedAt | UpdatedAt
    | Model | Mode | StartedAt | EndedAt | Outcome | TokenCost | CostUsd | LogRef | GithubPr | RiskLevel
    | EmSummary | TylerDecision | DecidedAt | Verdict | Findings | StrongestObjection | Body | Blocking
    | Answer | AnsweredAt | Context | DecisionText | Kind | Path | NotesText | Category | Observation
    | Evidence | FiledBy | Location | Severity | Recurrence | PassesSurvived | ResolvedRef | Definition
    | Rationale | Trigger | DocPath | OpenedAt | ClosedAt | Significance | SupersededBy | Mitigation
    | AcknowledgedBy | ResolvedAt | FromStatus | ToStatus | Actor | At | InputTokens | OutputTokens
    | CacheReadTokens | CacheWriteTokens | GroomRank | Author | TylerNote

  datatype Idx =
    | TasksStatus | RunsTask | ReviewsPr | DebtOpen | LearningsOpen | RisksOpen | TaskEventsTask | NotesCreatedAt

  datatype Value = Null | Int(n: int) | Text(text: string) | Flag(b: bool) | Time(t: int) | List(items: seq<int>)

  // server_default: none, a literal, or now()
  datatype Default = NoDefault | Literal(value: Value) | NowDefault

  datatype Column = Column(nullable: bool, default: Default, ref: Option<Tbl>)

  // CHECK constraints; NULL passes both.
  datatype Rule = OneOf(allowed: set<string>) | NonNegative

  type Row = map<Col, Value>

  /** A table: its columns, its checks (one per column at most), its unique keys and
      its rows by primary key. */
  datatype Table = Table(
    cols: map<Col, Column>, checks: map<Col, Rule>, uniques: set<set<Col>>, rows: map<int, Row>)

  datatype IndexDef = IndexDef(table: Tbl, col: Col)

  datatype Db = Db(tables: map<Tbl, Table>, indexes: map<Idx, IndexDef>)

  datatype Op =
    | CreateTable(t: Tbl, cols: map<Col, Column>, checks: map<Col, Rule>, uniques: set<set<Col>>)
    | DropTable(t: Tbl)
    | AddColumn(t: Tbl, c: Col, column: Column)
    | DropColumn(t: Tbl, c: Col)
    | AddCheck(t: Tbl, c: Col, rule: Rule)
    | DropCheck(t: Tbl, c: Col)
    | CreateIndex(i: Idx, def: IndexDef)
    | DropIndex(i: Idx)
    // INSERT INTO task_events SELECT ... FROM tasks, visiting the tasks in this order
    | Backfill(order: seq<int>, now: int)

  // ----- constraints on rows

  predicate Passes(rule: Rule, v: Value) {
    match v
    case Null => true
    case Int(n) => rule.NonNegative? ==> n >= 0
    case Text(s) => rule.OneOf? ==> s in rule.allowed
    case _ => true
  }

  predicate Points(v: Value, ref: Option<Tbl>, tables: map<Tbl, Table>) {
    ref.Some? && v != Null ==> v.Int? && ref.value in tables && v.n in tables[ref.value].rows
  }

  predicate RowOk(id: int, row: Row, table: Table, tables: map<Tbl, Table>)
    requires table.checks.Keys <= table.cols.Keys
  {
    && row.Keys == table.cols.Keys
    && (Id in row ==> row[Id] == Int(id))
    && (forall c | c in table.cols :: row[c] == Null ==> table.cols[c].nullable)
    && (forall c | c in table.cols :: Points(row[c], table.cols[c].ref, tables))
    && (forall c | c in table.checks :: Passes(table.checks[c], row[c]))
  }

  // Two rows that agree on a unique key without NULL are one row.
  ghost predicate UniqueOk(table: Table, key: set<Col>)
    requires key <= table.cols.Keys
    requires forall id | id in table.rows :: table.rows[id].Keys == table.cols.Keys
  {
    forall i, j | i in table.rows && j in table.rows && i != j ::
      exists c | c in key :: table.rows[i][c] == Null || table.rows[i][c] != table.rows[j][c]
  }

  // ----- well-formed schemas, valid databases

  ghost predicate TableFormed(table: Table, tables: map<Tbl, Table>) {
    && Id in table.cols
    && table.checks.Keys <= table.cols.Keys
    && (forall key | key in table.uniques :: key <= table.cols.Keys)
    && (forall c | c in table.cols :: table.cols[c].ref.Some? ==> table.cols[c].ref.value in tables)
    && (forall id | id in table.rows :: table.rows[id].Keys == table.cols.Keys)
  }

  ghost predicate Formed(db: Db) {
    && (forall t | t in db.tables :: TableFormed(db.tables[t], db.tables))
    && (forall i | i in db.indexes :: db.indexes[i].table in db.tables
                                      && db.indexes[i].col in db.tables[db.indexes[i].table].cols)
  }

  ghost predicate TableHolds(table: Table, tables: map<Tbl, Table>)
    requires TableFormed(table, tables)
  {
    && (forall id | id in table.rows :: RowOk(id, table.rows[id], table, tables))
    && (forall key | key in table.uniques :: UniqueOk(table, key))
  }

  /** Every constraint of the schema holds of the rows. */
  ghost predicate Holds(db: Db) {
    Formed(db) && forall t | t in db.tables :: TableHolds(db.tables[t], db.tables)
  }

  // ----- the operations

  // What existing rows get in an added column.
  function Fill(d: Default): Value {
    match d case Literal(v) => v case _ => Null
  }

  // Some column of these is a foreign key to `t`.
  ghost predicate Cites(cols: map<Col, Column>, t: Tbl) {
    exists c | c in cols :: cols[c].ref == Some(t)
  }

  // What the schema alone must allow.
  ghost predicate Fits(op: Op, db: Db) {
    match op
    case CreateTable(t, cols, checks, uniques) =>
      t !in db.tables && Declares(cols, checks, uniques) && RefersWithin(cols, db.tables.Keys + {t})
    case DropTable(t) =>
      t in db.tables && forall other | other in db.tables && other != t :: !Cites(db.tables[other].cols, t)
    case AddColumn(t, c, column) =>
      && t in db.tables && c !in db.tables[t].cols && !column.default.NowDefault?
      && (column.ref.Some? ==> column.ref.value in db.tables)
    case DropColumn(t, c) => t in db.tables && c in db.tables[t].cols && c != Id
    case AddCheck(t, c, rule) => t in db.tables && c in db.tables[t].cols && c !in db.tables[t].checks
    case DropCheck(t, c) => t in db.tables && c in db.tables[t].checks
    case CreateIndex(i, def) => i !in db.indexes && def.table in db.tables && def.col in db.tables[def.table].cols
    case DropIndex(i) => i in db.indexes
    case Backfill(_, _) => HasLog(db)
  }

  predicate Declares(cols: map<Col, Column>, checks: map<Col, Rule>, uniques: set<set<Col>>) {
    Id in cols && checks.Keys <= cols.Keys && forall key | key in uniques :: key <= cols.Keys
  }

  ghost predicate RefersWithin(cols: map<Col, Column>, tables: set<Tbl>) {
    forall c | c in cols :: cols[c].ref.Some? ==> cols[c].ref.value in tables
  }

  // Tasks, and the log as migration 0003 creates it.
  predicate HasLog(db: Db) {
    && Tasks in db.tables && TaskEvents in db.tables && Status in db.tables[Tasks].cols
    && db.tables[TaskEvents].cols.Keys == {Id, TaskId, FromStatus, ToStatus, Actor, At}
    && db.tables[TaskEvents].checks == map[] && db.tables[TaskEvents].uniques == {}
  }

  // The synthetic event of the task visited e-th by the INSERT ... SELECT.
  function Synthetic(tasks: Table, order: seq<int>, e: int, now: int): Row
    requires 1 <= e <= |order|
    requires order[e - 1] in tasks.rows && Status in tasks.rows[order[e - 1]]
  {
    map[Id := Int(e), TaskId := Int(order[e - 1]), FromStatus := Null,
        ToStatus := tasks.rows[order[e - 1]][Status], Actor := Text("backfill"), At := Time(now)]
  }

  ghost predicate Visits(tasks: Table, order: seq<int>) {
    forall i | 0 <= i < |order| :: order[i] in tasks.rows && Status in tasks.rows[order[i]]
  }

  function Seeded(tasks: Table, order: seq<int>, now: int): map<int, Row>
    requires Visits(tasks, order)
  {
    map e | 1 <= e <= |order| :: Synthetic(tasks, order, e, now)
  }

  ghost predicate AllPass(table: Table, c: Col, rule: Rule) {
    forall id | id in table.rows && c in table.rows[id] :: Passes(rule, table.rows[id][c])
  }

  ghost predicate Seeds(order: seq<int>, now: int, tasks: Table, events: Table, tables: map<Tbl, Table>) {
    && events.rows == map[] && events.checks == map[] && Visits(tasks, order)
    && var rows := Seeded(tasks, order, now);
       forall e | e in rows :: RowOk(e, rows[e], events, tables)
  }

  // What the rows must allow.
  ghost predicate Allows(op: Op, db: Db) {
    match op
    case AddColumn(t, c, column) =>
      t in db.tables && db.tables[t].rows != map[] ==>
        && (Fill(column.default) == Null ==> column.nullable)
        && Points(Fill(column.default), column.ref, db.tables)
    case AddCheck(t, c, rule) => t in db.tables ==> AllPass(db.tables[t], c, rule)
    case Backfill(order, now) =>
      && Tasks in db.tables && TaskEvents in db.tables
      && Seeds(order, now, db.tables[Tasks], db.tables[TaskEvents], db.tables)
    case _ => true
  }

  function PutTable(db: Db, t: Tbl, table: Table): Db {
    db.(tables := db.tables[t := table])
  }

  function Widened(table: Table, c: Col, column: Column): Table {
    table.(cols := table.cols[c := column],
           rows := map id | id in table.rows :: table.rows[id][c := Fill(column.default)])
  }

  function Narrowed(table: Table, c: Col): Table {
    Table(table.cols - {c}, table.checks - {c}, set key | key in table.uniques && c !in key,
          map id | id in table.rows :: table.rows[id] - {c})
  }

  function Unindexed(indexes: map<Idx, IndexDef>, def: IndexDef): map<Idx, IndexDef> {
    map i | i in indexes && indexes[i] != def :: indexes[i]
  }

  function Effect(op: Op, db: Db): Db
    requires match op
             case CreateTable(_, _, _, _) | DropTable(_) | CreateIndex(_, _) | DropIndex(_) => true
             case AddColumn(t, _, _) => t in db.tables
             case DropColumn(t, _) => t in db.tables
             case AddCheck(t, _, _) => t in db.tables
             case DropCheck(t, _) => t in db.tables
             case Backfill(order, _) =>
               TaskEvents in db.tables && Tasks in db.tables && Visits(db.tables[Tasks], order)
  {
    match op
    case CreateTable(t, cols, checks, uniques) => PutTable(db, t, Table(cols, checks, uniques, map[]))
    case DropTable(t) =>
      Db(db.tables - {t}, map i | i in db.indexes && db.indexes[i].table != t :: db.indexes[i])
    case AddColumn(t, c, column) => PutTable(db, t, Widened(db.tables[t], c, column))
    case DropColumn(t, c) =>
      PutTable(Db(db.tables, Unindexed(db.indexes, IndexDef(t, c))), t, Narrowed(db.tables[t], c))
    case AddCheck(t, c, rule) => PutTable(db, t, db.tables[t].(checks := db.tables[t].checks[c := rule]))
    case DropCheck(t, c) => PutTable(db, t, db.tables[t].(checks := db.tables[t].checks - {c}))
    case CreateIndex(i, def) => db.(indexes := db.indexes[i := def])
    case DropIndex(i) => db.(indexes := db.indexes - {i})
    case Backfill(order, now) =>
      PutTable(db, TaskEvents, db.tables[TaskEvents].(rows := Seeded(db.tables[Tasks], order, now)))
  }

  ghost function Apply(op: Op, db: Db): (r: Option<Db>)
    requires Formed(db)
  {
    if Fits(op, db) && Allows(op, db) then Some(Effect(op, db)) else None
  }

  lemma PutFormed(db: Db, t: Tbl, table: Table)
    requires Formed(db) && TableFormed(table, db.tables[t := table])
    requires forall i | i in db.indexes && db.indexes[i].table == t :: db.indexes[i].col in table.cols
    ensures Formed(PutTable(db, t, table))
  {
    var tables := db.tables[t := table];
    forall o | o in tables ensures TableFormed(tables[o], tables) {
      if o != t { assert TableFormed(db.tables[o], db.tables); }
    }
  }

  lemma DropFormed(db: Db, t: Tbl)
    requires Formed(db) && Fits(DropTable(t), db)
    ensures Formed(Effect(DropTable(t), db))
  {
    var after := Effect(DropTable(t), db);
    forall o | o in after.tables ensures TableFormed(after.tables[o], after.tables) {
      assert TableFormed(db.tables[o], db.tables);
    }
  }

  lemma ApplyFormed(op: Op, db: Db)
    requires Formed(db)
    ensures Apply(op, db).Some? ==> Formed(Apply(op, db).value)
  {
    if Fits(op, db) && Allows(op, db) {
      hide Formed, TableFormed;
      ApplyFormedCases(op, db);
    }
  }

  lemma ApplyFormedCases(op: Op, db: Db)
    requires Formed(db) && Fits(op, db) && Allows(op, db)
    ensures Formed(Effect(op, db))
  {
    match op
    case CreateTable(t, cols, checks, uniques) => PutFormed(db, t, Table(cols, checks, uniques, map[]));
    case DropTable(t) => DropFormed(db, t);
    case AddColumn(t, c, column) => AddFormed(db, t, c, column);
    case DropColumn(t, c) => NarrowFormed(db, t, c);
    case AddCheck(t, c, rule) => RecheckFormed(db, t, db.tables[t].checks[c := rule]);
    case DropCheck(t, c) => RecheckFormed(db, t, db.tables[t].checks - {c});
    case CreateIndex(i, def) =>
    case DropIndex(i) =>
    case Backfill(order, now) => SeedFormed(db, db.tables[TaskEvents], db.tables[Tasks], order, now);
  }

  lemma AddFormed(db: Db, t: Tbl, c: Col, column: Column)
    requires Formed(db) && Fits(AddColumn(t, c, column), db)
    ensures Formed(PutTable(db, t, Widened(db.tables[t], c, column)))
  {
    assert TableFormed(db.tables[t], db.tables);
    PutFormed(db, t, Widened(db.tables[t], c, column));
  }

  lemma NarrowFormed(db: Db, t: Tbl, c: Col)
    requires Formed(db) && Fits(DropColumn(t, c), db)
    ensures Formed(PutTable(Db(db.tables, Unindexed(db.indexes, IndexDef(t, c))), t, Narrowed(db.tables[t], c)))
  {
    UnindexedFormed(db, t, c);
    NarrowedFormed(db.tables[t], db.tables, t, c);
    hide *;
    PutFormed(Db(db.tables, Unindexed(db.indexes, IndexDef(t, c))), t, Narrowed(db.tables[t], c));
  }

  lemma UnindexedFormed(db: Db, t: Tbl, c: Col)
    requires Formed(db) && t in db.tables
    ensures var indexes := Unindexed(db.indexes, IndexDef(t, c));
            && TableFormed(db.tables[t], db.tables) && Formed(Db(db.tables, indexes))
            && forall i | i in indexes && indexes[i].table == t ::
              indexes[i].col in db.tables[t].cols.Keys - {c}
  {
    hide TableFormed;
  }

  lemma NarrowedFormed(table: Table, tables: map<Tbl, Table>, t: Tbl, c: Col)
    requires TableFormed(table, tables) && c != Id
    ensures TableFormed(Narrowed(table, c), tables[t := Narrowed(table, c)])
    ensures Narrowed(table, c).cols.Keys == table.cols.Keys - {c}
  {
  }

  lemma RecheckFormed(db: Db, t: Tbl, checks: map<Col, Rule>)
    requires Formed(db) && t in db.tables && checks.Keys <= db.tables[t].cols.Keys
    ensures Formed(PutTable(db, t, db.tables[t].(checks := checks)))
  {
    assert TableFormed(db.tables[t], db.tables);
    PutFormed(db, t, db.tables[t].(checks := checks));
  }

  lemma SeedFormed(db: Db, events: Table, tasks: Table, order: seq<int>, now: int)
    requires Formed(db) && TaskEvents in db.tables && db.tables[TaskEvents] == events && Visits(tasks, order)
    requires events.cols.Keys == {Id, TaskId, FromStatus, ToStatus, Actor, At}
    ensures Formed(PutTable(db, TaskEvents, events.(rows := Seeded(tasks, order, now))))
  {
    SeededKeys(tasks, order, now);
    hide *;
    RowsFormed(db, TaskEvents, Seeded(tasks, order, now));
  }

  lemma SeededKeys(tasks: Table, order: seq<int>, now: int)
    requires Visits(tasks, order)
    ensures forall e | e in Seeded(tasks, order, now) ::
              Seeded(tasks, order, now)[e].Keys == {Id, TaskId, FromStatus, ToStatus, Actor, At}
  {
  }

  lemma RowsFormed(db: Db, t: Tbl, rows: map<int, Row>)
    requires Formed(db) && t in db.tables && forall id | id in rows :: rows[id].Keys == db.tables[t].cols.Keys
    ensures Formed(PutTable(db, t, db.tables[t].(rows := rows)))
  {
    assert TableFormed(db.tables[t], db.tables);
    PutFormed(db, t, db.tables[t].(rows := rows));
  }

  /** One migration: its operations in order, all or nothing. */
  ghost function ApplyAll(ops: seq<Op>, db: Db): (r: Option<Db>)
    requires Formed(db)
    ensures r.Some? ==> Formed(r.value)
    decreases |ops|
  {
    if ops == [] then Some(db)
    else
      ApplyFormed(ops[0], db);
      match Apply(ops[0], db)
      case None => None
      case Some(next) => ApplyAll(ops[1..], next)
  }
}
