/** The schema that the migrations leave, table by table, and what its constraints and
    operations mean for the rows. */
module SchemaFacts {
  import opened Prelude
  import opened Schema
  import opened Migrations

  // ----- the data dictionary

  /** An empty table of these columns; those named optional may be NULL, those named in
      refs are foreign keys, and only those named have a default, or a check. */
  ghost predicate Describes(table: Table, cols: set<Col>, optional: set<Col>, refs: map<Col, Tbl>,
                            defaults: map<Col, Default>, checks: map<Col, Rule>, uniques: set<set<Col>>)
  {
    && table.cols.Keys == cols && table.checks == checks && table.uniques == uniques && table.rows == map[]
    && Nullable(table.cols, optional) && References(table.cols, refs) && Defaulted(table.cols, defaults)
  }

  ghost predicate Nullable(cols: map<Col, Column>, optional: set<Col>) {
    forall c | c in cols :: cols[c].nullable <==> c in optional
  }

  ghost predicate References(cols: map<Col, Column>, refs: map<Col, Tbl>) {
    forall c | c in cols :: cols[c].ref == if c in refs then Some(refs[c]) else None
  }

  ghost predicate Defaulted(cols: map<Col, Column>, defaults: map<Col, Default>) {
    forall c | c in cols :: cols[c].default == if c in defaults then defaults[c] else NoDefault
  }

  lemma ProjectsTable()
    ensures Describes(BaseTable(Projects), {Id, Name, Repo, Status, Brief, CreatedAt}, {Brief}, map[],
                      map[Status := Literal(Text("active")), CreatedAt := NowDefault],
                      map[Status := OneOf({"active", "paused", "done", "archived"})], {{Name}})
  {
  }

  lemma TasksColumns()
    ensures var table := BaseTable(Tasks);
            && table.cols.Keys == {Id, ProjectId, Title, Spec, Status, Blocked, BlockedReason, Role, ModelTier, PrdRef,
                                   Branch, DependsOn, CreatedAt, UpdatedAt}
            && table.uniques == {} && table.rows == map[]
            && table.checks == map[Status := OneOf({"backlog", "planned", "in_progress", "in_review", "awaiting_tyler",
                                                    "done"}),
                                   ModelTier := OneOf({"plan", "execute", "local"})]
  {
  }

  lemma TasksOptional()
    ensures Nullable(BaseTable(Tasks).cols, {Spec, BlockedReason, Role, PrdRef, Branch})
  {
  }

  lemma TasksRefer()
    ensures References(BaseTable(Tasks).cols, map[ProjectId := Projects])
  {
  }

  lemma TasksDefault()
    ensures Defaulted(BaseTable(Tasks).cols,
                      map[Status := Literal(Text("backlog")), Blocked := Literal(Flag(false)),
                          ModelTier := Literal(Text("execute")), DependsOn := Literal(List([])),
                          CreatedAt := NowDefault, UpdatedAt := NowDefault])
  {
  }

  lemma TasksTable()
    ensures Describes(BaseTable(Tasks),
                      {Id, ProjectId, Title, Spec, Status, Blocked, BlockedReason, Role, ModelTier, PrdRef, Branch,
                       DependsOn, CreatedAt, UpdatedAt},
                      {Spec, BlockedReason, Role, PrdRef, Branch}, map[ProjectId := Projects],
                      map[Status := Literal(Text("backlog")), Blocked := Literal(Flag(false)),
                          ModelTier := Literal(Text("execute")), DependsOn := Literal(List([])),
                          CreatedAt := NowDefault, UpdatedAt := NowDefault],
                      map[Status := OneOf({"backlog", "planned", "in_progress", "in_review", "awaiting_tyler", "done"}),
                          ModelTier := OneOf({"plan", "execute", "local"})], {})
  {
    TasksColumns();
    TasksOptional();
    TasksRefer();
    TasksDefault();
    hide BaseTable, Nullable, References, Defaulted;
  }

  lemma RunsTable()
    ensures Describes(BaseTable(Runs),
                      {Id, TaskId, Role, Model, Mode, StartedAt, EndedAt, Outcome, TokenCost, CostUsd, LogRef},
                      {TaskId, EndedAt, Outcome, TokenCost, CostUsd, LogRef}, map[TaskId := Tasks],
                      map[StartedAt := NowDefault],
                      map[Mode := OneOf({"team", "subagent", "headless", "interactive"}),
                          Outcome := OneOf({"done", "negative-result", "blocked", "failed"})], {})
  {
  }

  lemma PrsTable()
    ensures Describes(BaseTable(Prs),
                      {Id, ProjectId, GithubPr, Status, RiskLevel, EmSummary, TylerDecision, DecidedAt},
                      {RiskLevel, EmSummary, TylerDecision, DecidedAt}, map[ProjectId := Projects],
                      map[Status := Literal(Text("open"))],
                      map[Status := OneOf({"open", "merged", "rejected", "closed"}),
                          RiskLevel := OneOf({"low", "medium", "high"})], {{ProjectId, GithubPr}})
  {
  }

  lemma ReviewsTable()
    ensures Describes(BaseTable(Reviews),
                      {Id, PrId, Role, Model, Verdict, Findings, StrongestObjection, CreatedAt}, {Model},
                      map[PrId := Prs], map[Findings := Literal(Text("[]")), CreatedAt := NowDefault],
                      map[Verdict := OneOf({"approve", "concerns", "block"})], {})
  {
  }

  lemma QuestionsTable()
    ensures Describes(BaseTable(Questions),
                      {Id, ProjectId, Body, Blocking, Answer, AnsweredAt, CreatedAt}, {ProjectId, Answer, AnsweredAt},
                      map[ProjectId := Projects], map[Blocking := Literal(Flag(false)), CreatedAt := NowDefault],
                      map[], {})
  {
  }

  lemma DecisionsTable()
    ensures Describes(BaseTable(Decisions),
                      {Id, ProjectId, Title, Context, DecisionText, CreatedAt}, {ProjectId, Context},
                      map[ProjectId := Projects], map[CreatedAt := NowDefault], map[], {})
  {
  }

  lemma ArtifactsTable()
    ensures Describes(BaseTable(Artifacts),
                      {Id, ProjectId, TaskId, Kind, Path, Status, DecidedAt, NotesText}, {TaskId, DecidedAt, NotesText},
                      map[ProjectId := Projects, TaskId := Tasks], map[Status := Literal(Text("proposed"))],
                      map[Kind := OneOf({"mockup", "diagram", "spec", "schema", "model", "eval-set", "prompt"}),
                          Status := OneOf({"proposed", "approved", "rejected", "superseded"})], {})
  {
  }

  lemma LearningsTable()
    ensures Describes(BaseTable(Learnings),
                      {Id, Category, Observation, Evidence, FiledBy, Status, RetroId, CreatedAt},
                      {Evidence, FiledBy, RetroId}, map[],
                      map[Status := Literal(Text("open")), CreatedAt := NowDefault],
                      map[Category := OneOf({"start", "stop", "keep", "question"}),
                          Status := OneOf({"open", "resolved", "escalated"})], {})
  {
  }

  lemma DebtColumns()
    ensures var table := BaseTable(Debt);
            && table.cols.Keys == {Id, ProjectId, Location, Kind, Severity, Evidence, FiledBy, Recurrence,
                                   PassesSurvived, Status, ResolvedRef, CreatedAt}
            && table.uniques == {} && table.rows == map[]
            && table.checks == map[Kind := OneOf({"duplication", "coupling", "missing-tests", "pattern-drift",
                                                  "dead-code", "docs", "other"}),
                                   Severity := OneOf({"high", "medium", "low"}),
                                   Status := OneOf({"open", "proposed", "resolved", "stale", "escalated"})]
  {
  }

  lemma DebtOptional()
    ensures Nullable(BaseTable(Debt).cols, {ProjectId, FiledBy, ResolvedRef})
  {
  }

  lemma DebtRefer()
    ensures References(BaseTable(Debt).cols, map[ProjectId := Projects])
  {
  }

  lemma DebtDefault()
    ensures Defaulted(BaseTable(Debt).cols,
                      map[Recurrence := Literal(Int(1)), PassesSurvived := Literal(Int(0)),
                          Status := Literal(Text("open")), CreatedAt := NowDefault])
  {
  }

  lemma DebtTable()
    ensures Describes(BaseTable(Debt),
                      {Id, ProjectId, Location, Kind, Severity, Evidence, FiledBy, Recurrence, PassesSurvived, Status,
                       ResolvedRef, CreatedAt},
                      {ProjectId, FiledBy, ResolvedRef}, map[ProjectId := Projects],
                      map[Recurrence := Literal(Int(1)), PassesSurvived := Literal(Int(0)),
                          Status := Literal(Text("open")), CreatedAt := NowDefault],
                      map[Kind := OneOf({"duplication", "coupling", "missing-tests", "pattern-drift", "dead-code",
                                         "docs", "other"}),
                          Severity := OneOf({"high", "medium", "low"}),
                          Status := OneOf({"open", "proposed", "resolved", "stale", "escalated"})], {})
  {
    DebtColumns();
    DebtOptional();
    DebtRefer();
    DebtDefault();
    hide BaseTable, Nullable, References, Defaulted;
  }

  lemma MetricsTable()
    ensures Describes(BaseTable(Metrics),
                      {Id, Name, Definition, Rationale, Status, CreatedAt}, {}, map[],
                      map[Status := Literal(Text("active")), CreatedAt := NowDefault],
                      map[Status := OneOf({"proposed", "active", "retired"})], {{Name}})
  {
  }

  lemma RetrosTable()
    ensures Describes(BaseTable(Retros),
                      {Id, Trigger, DocPath, OpenedAt, ClosedAt}, {DocPath, ClosedAt}, map[],
                      map[OpenedAt := NowDefault], map[], {})
  {
  }

  lemma RisksColumns()
    ensures var table := BaseTable(Risks);
            && table.cols.Keys == {Id, ProjectId, Title, Body, Category, Severity, Status, Mitigation, DecisionId, PrId,
                                   AcknowledgedBy, CreatedAt, ResolvedAt}
            && table.uniques == {} && table.rows == map[]
            && table.checks == map[Category := OneOf({"security", "architecture", "operational", "cost", "dependency",
                                                      "product"}),
                                   Severity := OneOf({"high", "medium", "low"}),
                                   Status := OneOf({"acknowledged", "mitigated", "accepted", "realized", "closed"})]
  {
  }

  lemma RisksOptional()
    ensures Nullable(BaseTable(Risks).cols, {Body, Mitigation, DecisionId, PrId, AcknowledgedBy, ResolvedAt})
  {
  }

  lemma RisksRefer()
    ensures References(BaseTable(Risks).cols, map[ProjectId := Projects, DecisionId := Decisions, PrId := Prs])
  {
  }

  lemma RisksDefault()
    ensures Defaulted(BaseTable(Risks).cols,
                      map[Status := Literal(Text("acknowledged")), CreatedAt := NowDefault])
  {
  }

  lemma RisksTable()
    ensures Describes(BaseTable(Risks),
                      {Id, ProjectId, Title, Body, Category, Severity, Status, Mitigation, DecisionId, PrId,
                       AcknowledgedBy, CreatedAt, ResolvedAt},
                      {Body, Mitigation, DecisionId, PrId, AcknowledgedBy, ResolvedAt},
                      map[ProjectId := Projects, DecisionId := Decisions, PrId := Prs],
                      map[Status := Literal(Text("acknowledged")), CreatedAt := NowDefault],
                      map[Category := OneOf({"security", "architecture", "operational", "cost", "dependency",
                                             "product"}),
                          Severity := OneOf({"high", "medium", "low"}),
                          Status := OneOf({"acknowledged", "mitigated", "accepted", "realized", "closed"})], {})
  {
    RisksColumns();
    RisksOptional();
    RisksRefer();
    RisksDefault();
    hide BaseTable, Nullable, References, Defaulted;
  }

  lemma TaskEventsTable()
    ensures Describes(BaseTable(TaskEvents), {Id, TaskId, FromStatus, ToStatus, Actor, At}, {FromStatus, Actor},
                      map[TaskId := Tasks], map[At := NowDefault], map[], {})
  {
  }

  lemma NotesTable()
    ensures Describes(BaseTable(Notes), {Id, Body, Author, Context, CreatedAt}, {Author, Context}, map[],
                      map[CreatedAt := NowDefault], map[], {})
  {
  }

  // ----- what the constraints mean for the rows

  /** A row meets its table's constraints exactly if it has a value in every column, its
      own id, no NULL where that is not allowed, foreign keys that are NULL or point at a
      row, texts from the vocabularies and no negative counts. */
  lemma RowOkIff(id: int, row: Row, table: Table, tables: map<Tbl, Table>)
    requires table.checks.Keys <= table.cols.Keys
    ensures RowOk(id, row, table, tables) <==>
            && row.Keys == table.cols.Keys
            && (Id in table.cols ==> row[Id] == Int(id))
            && (forall c | c in table.cols :: row[c] != Null || table.cols[c].nullable)
            && (forall c | c in table.cols && table.cols[c].ref.Some? && row[c] != Null ::
                  && row[c].Int? && table.cols[c].ref.value in tables
                  && row[c].n in tables[table.cols[c].ref.value].rows)
            && forall c | c in table.checks ::
                 match table.checks[c]
                 case OneOf(allowed) => row[c].Text? ==> row[c].text in allowed
                 case NonNegative => row[c].Int? ==> row[c].n >= 0
  {
    assert forall rule, v :: Passes(rule, v) <==>
        match rule
        case OneOf(allowed) => v.Text? ==> v.text in allowed
        case NonNegative => v.Int? ==> v.n >= 0;
    hide Passes;
  }

  /** A unique key tells any two rows apart, unless one of them has a NULL in it. */
  lemma UniqueOkIff(table: Table, key: set<Col>)
    requires key <= table.cols.Keys
    requires forall id | id in table.rows :: table.rows[id].Keys == table.cols.Keys
    ensures UniqueOk(table, key) <==>
            forall i, j | i in table.rows && j in table.rows && i != j ::
              !(forall c | c in key :: table.rows[i][c] != Null && table.rows[i][c] == table.rows[j][c])
  {
  }

  /** A database holds exactly if every row and every unique key does. */
  lemma HoldsIff(db: Db)
    requires Formed(db) && forall t | t in db.tables :: TableFormed(db.tables[t], db.tables)
    ensures Holds(db) <==>
            forall t | t in db.tables ::
              && (forall id | id in db.tables[t].rows :: RowOk(id, db.tables[t].rows[id], db.tables[t], db.tables))
              && forall key | key in db.tables[t].uniques :: UniqueOk(db.tables[t], key)
  {
    hide RowOk, UniqueOk, Formed;
  }

  // ----- what the operations mean

  // The database with one table exchanged.
  function With(db: Db, t: Tbl, table: Table): Db {
    Db(db.tables[t := table], db.indexes)
  }

  /** CREATE TABLE: a new, empty table that has an id, checks and keys on its own columns,
      and foreign keys to tables that are there or to itself. */
  lemma CreateTableExact(db: Db, t: Tbl, cols: map<Col, Column>, checks: map<Col, Rule>, uniques: set<set<Col>>)
    requires Formed(db)
    ensures Apply(CreateTable(t, cols, checks, uniques), db) ==
            if && t !in db.tables && Id in cols && checks.Keys <= cols.Keys
               && (forall key | key in uniques :: key <= cols.Keys)
               && (forall c | c in cols && cols[c].ref.Some? ::
                     cols[c].ref.value in db.tables || cols[c].ref.value == t)
            then Some(With(db, t, Table(cols, checks, uniques, map[]))) else None
  {
    hide Formed;
  }

  /** DROP TABLE: refused exactly while another table refers to it; its indexes go too. */
  lemma DropTableExact(db: Db, t: Tbl)
    requires Formed(db)
    ensures Apply(DropTable(t), db).Some? <==>
            && t in db.tables
            && forall o, c | o in db.tables && o != t && c in db.tables[o].cols :: db.tables[o].cols[c].ref != Some(t)
    ensures Apply(DropTable(t), db).Some? ==>
              var after := Apply(DropTable(t), db).value;
              && after.tables == db.tables - {t}
              && forall i :: i in after.indexes <==> i in db.indexes && db.indexes[i].table != t
    ensures Apply(DropTable(t), db).Some? ==>
              var after := Apply(DropTable(t), db).value;
              forall i | i in after.indexes :: after.indexes[i] == db.indexes[i]
  {
    hide Formed;
  }

  /** ADD COLUMN: every row gets the literal default, or NULL, which the new column must
      allow; the table must not have it yet, and what it refers to must be there. */
  lemma AddColumnExact(db: Db, t: Tbl, c: Col, column: Column)
    requires Formed(db) && !column.default.NowDefault?
    ensures var fill := if column.default.Literal? then column.default.value else Null;
            Apply(AddColumn(t, c, column), db).Some? <==>
            && t in db.tables && c !in db.tables[t].cols
            && (column.ref.Some? ==> column.ref.value in db.tables)
            && (db.tables[t].rows != map[] ==>
                  && (fill == Null ==> column.nullable)
                  && (column.ref.Some? && fill != Null ==> fill.Int? && fill.n in db.tables[column.ref.value].rows))
    ensures Apply(AddColumn(t, c, column), db).Some? ==>
              var fill := if column.default.Literal? then column.default.value else Null;
              var was := db.tables[t];
              Apply(AddColumn(t, c, column), db).value ==
              With(db, t, was.(cols := was.cols[c := column],
                               rows := map id | id in was.rows :: was.rows[id][c := fill]))
  {
    hide Formed;
  }

  /** DROP COLUMN: any but the id; its values go from every row, and its checks, keys and
      index with it. */
  lemma DropColumnExact(db: Db, t: Tbl, c: Col)
    requires Formed(db)
    ensures Apply(DropColumn(t, c), db).Some? <==> t in db.tables && c in db.tables[t].cols && c != Id
    ensures Apply(DropColumn(t, c), db).Some? ==>
              var (was, after) := (db.tables[t], Apply(DropColumn(t, c), db).value);
              && after.tables.Keys == db.tables.Keys
              && (forall o | o in db.tables && o != t :: after.tables[o] == db.tables[o])
              && after.tables[t].cols == was.cols - {c} && after.tables[t].checks == was.checks - {c}
              && after.tables[t].rows.Keys == was.rows.Keys
              && (forall id | id in was.rows :: after.tables[t].rows[id] == was.rows[id] - {c})
              && (forall key :: key in after.tables[t].uniques <==> key in was.uniques && c !in key)
              && (forall i :: i in after.indexes <==> i in db.indexes && db.indexes[i] != IndexDef(t, c))
              && forall i | i in after.indexes :: after.indexes[i] == db.indexes[i]
  {
    hide Formed;
  }

  /** No stored value breaks the rule; only a text can break a vocabulary, only a number a
      lower bound. */
  ghost predicate Obeyed(table: Table, c: Col, rule: Rule) {
    forall id | id in table.rows && c in table.rows[id] ::
      match rule
      case OneOf(allowed) => table.rows[id][c].Text? ==> table.rows[id][c].text in allowed
      case NonNegative => table.rows[id][c].Int? ==> table.rows[id][c].n >= 0
  }

  /** ADD CHECK: refused exactly if some stored value breaks it. */
  lemma AddCheckExact(db: Db, t: Tbl, c: Col, rule: Rule)
    requires Formed(db)
    ensures Apply(AddCheck(t, c, rule), db).Some? <==>
            && t in db.tables && c in db.tables[t].cols && c !in db.tables[t].checks
            && Obeyed(db.tables[t], c, rule)
    ensures Apply(AddCheck(t, c, rule), db).Some? ==>
              Apply(AddCheck(t, c, rule), db).value ==
              With(db, t, db.tables[t].(checks := db.tables[t].checks[c := rule]))
  {
    hide Formed, Fits, Allows, Effect, Obeyed, With;
    AddCheckFits(db, t, c, rule);
    if t in db.tables { AddCheckEffect(db, t, c, rule); }
  }

  lemma AddCheckFits(db: Db, t: Tbl, c: Col, rule: Rule)
    ensures Fits(AddCheck(t, c, rule), db) <==>
            t in db.tables && c in db.tables[t].cols && c !in db.tables[t].checks
    ensures t in db.tables ==>
              (Allows(AddCheck(t, c, rule), db) <==> Obeyed(db.tables[t], c, rule))
  {
  }

  lemma AddCheckEffect(db: Db, t: Tbl, c: Col, rule: Rule)
    requires t in db.tables
    ensures Effect(AddCheck(t, c, rule), db) ==
            With(db, t, db.tables[t].(checks := db.tables[t].checks[c := rule]))
  {
  }

  /** DROP CHECK asks only that the check is there. */
  lemma DropCheckExact(db: Db, t: Tbl, c: Col)
    requires Formed(db)
    ensures Apply(DropCheck(t, c), db).Some? <==> t in db.tables && c in db.tables[t].checks
    ensures Apply(DropCheck(t, c), db).Some? ==>
              Apply(DropCheck(t, c), db).value ==
              With(db, t, db.tables[t].(checks := db.tables[t].checks - {c}))
  {
    hide Formed, Fits, Allows, Effect, With;
    DropCheckFits(db, t, c);
    if t in db.tables { DropCheckEffect(db, t, c); }
  }

  lemma DropCheckFits(db: Db, t: Tbl, c: Col)
    ensures Fits(DropCheck(t, c), db) <==> t in db.tables && c in db.tables[t].checks
    ensures Allows(DropCheck(t, c), db)
  {
  }

  lemma DropCheckEffect(db: Db, t: Tbl, c: Col)
    requires t in db.tables
    ensures Effect(DropCheck(t, c), db) == With(db, t, db.tables[t].(checks := db.tables[t].checks - {c}))
  {
  }

  /** So with indexes, on a column that is there. */
  lemma IndexesExact(db: Db, i: Idx, def: IndexDef)
    requires Formed(db)
    ensures Apply(CreateIndex(i, def), db) ==
            if i !in db.indexes && def.table in db.tables && def.col in db.tables[def.table].cols
            then Some(Db(db.tables, db.indexes[i := def])) else None
    ensures Apply(DropIndex(i), db) == if i in db.indexes then Some(Db(db.tables, db.indexes - {i})) else None
  {
    hide Formed;
  }
}
