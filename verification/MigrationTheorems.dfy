/** Upgrades preserve arbitrary contents and are undone exactly; downgrades always
    succeed. */
module MigrationTheorems {
  import opened Prelude
  import opened Schema
  import opened SchemaLaws
  import opened SchemaShape
  import opened Migrations
  import opened RevisionSchemas

  // ----- no stored row can refuse an upgrade's additions

  lemma {:induction false} SafeCreates(ops: seq<Op>, added: map<(Tbl, Col), Value>)
    requires forall op | op in ops :: op.CreateTable? || op.CreateIndex?
    ensures Safe(ops, added)
  {
    if ops != [] {
      assert ops[0] in ops;
      SafeCreates(ops[1..], added);
    }
  }

  lemma SafeColumn(t: Tbl, c: Col, column: Column, rest: seq<Op>, added: map<(Tbl, Col), Value>)
    requires var v := Fill(column.default); (v == Null || column.ref.None?) && (v == Null ==> column.nullable)
    requires Safe(rest, added[(t, c) := Fill(column.default)])
    ensures Safe([AddColumn(t, c, column)] + rest, added)
  {
    assert ([AddColumn(t, c, column)] + rest)[1..] == rest;
  }

  lemma SafeCheck(t: Tbl, c: Col, rule: Rule, rest: seq<Op>, added: map<(Tbl, Col), Value>)
    requires (t, c) in added && Passes(rule, added[(t, c)]) && Safe(rest, added)
    ensures Safe([AddCheck(t, c, rule)] + rest, added)
  {
    assert ([AddCheck(t, c, rule)] + rest)[1..] == rest;
  }

  lemma V3CreateIsSafe(added: map<(Tbl, Col), Value>)
    ensures Safe(V3_CREATE, added)
  {
    hide BaseTable;
    SafeCreates(V3_CREATE, added);
  }

  lemma V3IsSafe()
    ensures Safe(V3_ALTER + V3_CREATE, map[])
  {
    hide Safe, V3_CREATE;
    var rule0, rule1 := OneOf({"proposed", "accepted", "superseded", "reversed"}), OneOf({"major", "minor"});
    var a0 := map[(Decisions, Status) := Text("accepted")];
    var a1 := a0[(Decisions, Significance) := Text("major")];
    var a2 := a1[(Decisions, SupersededBy) := Null];
    var a3 := a2[(Prs, TaskId) := Null];
    V3CreateIsSafe(a3);
    hide V3_ALTER;
    SafeColumn(Prs, TaskId, OptFk(Tasks), V3_CREATE, a2);
    var l5 := [AddColumn(Prs, TaskId, OptFk(Tasks))] + V3_CREATE;
    SafeCheck(Decisions, Significance, rule1, l5, a2);
    var l4 := [AddCheck(Decisions, Significance, rule1)] + l5;
    SafeCheck(Decisions, Status, rule0, l4, a2);
    var l3 := [AddCheck(Decisions, Status, rule0)] + l4;
    SafeColumn(Decisions, SupersededBy, OptFk(Decisions), l3, a1);
    var l2 := [AddColumn(Decisions, SupersededBy, OptFk(Decisions))] + l3;
    SafeColumn(Decisions, Significance, Def(Text("major")), l2, a0);
    var l1 := [AddColumn(Decisions, Significance, Def(Text("major")))] + l2;
    SafeColumn(Decisions, Status, Def(Text("accepted")), l1, map[]);
    AlterInOrder();
    hide *;
    SixInOrder(AddColumn(Decisions, Status, Def(Text("accepted"))),
               AddColumn(Decisions, Significance, Def(Text("major"))),
               AddColumn(Decisions, SupersededBy, OptFk(Decisions)), AddCheck(Decisions, Status, rule0),
               AddCheck(Decisions, Significance, rule1), AddColumn(Prs, TaskId, OptFk(Tasks)), V3_CREATE);
  }

  lemma AlterInOrder()
    ensures var rule0 := OneOf({"proposed", "accepted", "superseded", "reversed"});
            var rule1 := OneOf({"major", "minor"});
            V3_ALTER ==
            [AddColumn(Decisions, Status, Def(Text("accepted"))),
             AddColumn(Decisions, Significance, Def(Text("major"))),
             AddColumn(Decisions, SupersededBy, OptFk(Decisions)), AddCheck(Decisions, Status, rule0),
             AddCheck(Decisions, Significance, rule1), AddColumn(Prs, TaskId, OptFk(Tasks))]
  {
  }

  lemma SixInOrder(a: Op, b: Op, c: Op, d: Op, e: Op, f: Op, rest: seq<Op>)
    ensures [a, b, c, d, e, f] + rest == [a] + ([b] + ([c] + ([d] + ([e] + ([f] + rest)))))
  {
  }

  lemma SafePair(c: Col, rest: seq<Op>, added: map<(Tbl, Col), Value>)
    requires Safe(rest, added[(Runs, c) := Null])
    ensures Safe([AddColumn(Runs, c, OPT)] + ([AddCheck(Runs, c, NonNegative)] + rest), added)
  {
    hide Safe;
    SafeCheck(Runs, c, NonNegative, rest, added[(Runs, c) := Null]);
    SafeColumn(Runs, c, OPT, [AddCheck(Runs, c, NonNegative)] + rest, added);
  }

  lemma V4IsSafe()
    ensures Safe(V4_UP, map[])
  {
    var a1: map<(Tbl, Col), Value> := map[(Runs, InputTokens) := Null];
    var a2 := a1[(Runs, OutputTokens) := Null];
    var a3 := a2[(Runs, CacheReadTokens) := Null];
    assert Safe([], a3[(Runs, CacheWriteTokens) := Null]);
    hide Safe;
    SafePair(CacheWriteTokens, [], a3);
    var l3 := [AddColumn(Runs, CacheWriteTokens, OPT)] + ([AddCheck(Runs, CacheWriteTokens, NonNegative)] + []);
    SafePair(CacheReadTokens, l3, a2);
    var l2 := [AddColumn(Runs, CacheReadTokens, OPT)] + ([AddCheck(Runs, CacheReadTokens, NonNegative)] + l3);
    SafePair(OutputTokens, l2, a1);
    var l1 := [AddColumn(Runs, OutputTokens, OPT)] + ([AddCheck(Runs, OutputTokens, NonNegative)] + l2);
    SafePair(InputTokens, l1, map[]);
    assert [AddColumn(Runs, InputTokens, OPT)] + ([AddCheck(Runs, InputTokens, NonNegative)] + l1) == V4_UP;
  }

  lemma LaterAreSafe()
    ensures Safe(V5_UP, map[]) && Safe(V6_UP, map[]) && Safe(V7_UP, map[])
  {
    hide BaseTable;
    SafeCreates(V6_UP, map[]);
    var a: map<(Tbl, Col), Value> := map[(Prs, TylerNote) := Null];
    var done: seq<Op> := [];
    SafeCreates(done, map[(Tasks, GroomRank) := Null]);
    SafeColumn(Tasks, GroomRank, OPT, done, map[]);
    assert [AddColumn(Tasks, GroomRank, OPT)] + done == V5_UP;
    SafeCreates(done, a[(Decisions, TylerNote) := Null]);
    SafeColumn(Decisions, TylerNote, OPT, done, a);
    SafeColumn(Prs, TylerNote, OPT, [AddColumn(Decisions, TylerNote, OPT)] + done, map[]);
    assert [AddColumn(Prs, TylerNote, OPT)] + ([AddColumn(Decisions, TylerNote, OPT)] + done) == V7_UP;
  }

  lemma V1IsSafe()
    ensures Safe(Additions(V1), map[])
  {
    hide Additions, Safe, CreateAll, V1_TABLES, BaseTable;
    FirstAdditions();
    var creates := CreateAll(V1_TABLES);
    forall op | op in creates ensures op.CreateTable? {
      var k :| 0 <= k < |creates| && creates[k] == op;
      assert op == Create(V1_TABLES[k]);
    }
    assert forall op | op in V1_INDEXES :: op.CreateIndex?;
    SafeCreates(creates + V1_INDEXES, map[]);
  }

  lemma AdditionsAreSafe(r: Rev)
    ensures Safe(Additions(r), map[])
  {
    hide BaseTable, V3_ALTER, V3_CREATE, V4_UP, V5_UP, V6_UP, V7_UP;
    match r
    case Base =>
    case V1 => V1IsSafe();
    case V3 => V3IsSafe();
    case V4 => V4IsSafe();
    case V5 => LaterAreSafe();
    case V6 => LaterAreSafe();
    case V7 => LaterAreSafe();
  }

  // ----- the additions of any upgrade, over arbitrary contents

  lemma NothingIsUniform(db: Db)
    ensures Uniform(db, map[])
  {
  }

  lemma ShapeStep(r: Rev)
    requires r != Base && ShapeAt(Prev(r)).Some?
    ensures ShapeAt(r) == ApplyAll(Additions(r), ShapeAt(Prev(r)).value)
  {
  }

  lemma NoBackfill(r: Rev)
    ensures forall op | op in Additions(r) :: Constructive(op)
    ensures forall op | op in Additions(r) :: !op.Backfill?
  {
    hide Additions;
    if r == V3 {
      AlterUndone();
      AdditionsOfV3();
    } else {
      DowngradeUndoes(r);
    }
  }

  lemma AdditionsOfV3()
    ensures Additions(V3) == V3_ALTER + V3_CREATE
  {
    hide V3_ALTER, V3_CREATE;
  }

  /** The additions succeed on every valid database, give a valid one of the new
      schema, and keep every stored value. */
  lemma AdditionsWork(r: Rev, db: Db)
    requires r != Base && Valid(Prev(r), db)
    ensures ApplyAll(Additions(r), db).Some?
    ensures var d := ApplyAll(Additions(r), db).value; Valid(r, d) && Preserves(db, d)
  {
    assert Formed(db) && Holds(db) && ShapeAt(Prev(r)) == Some(Shape(db));
    hide *;
    SchemasExist(r);
    ShapeStep(r);
    ShapeFormed(db);
    AdditionsAreSafe(r);
    NothingIsUniform(db);
    SafeSucceeds(Additions(r), db, map[]);
    NoBackfill(r);
    AllByShape(Additions(r), db);
    AllHold(Additions(r), db);
    AllPreserve(Additions(r), db);
    IsValid(r, ApplyAll(Additions(r), db).value);
  }

  lemma IsValid(r: Rev, db: Db)
    requires Formed(db) && Holds(db) && ShapeAt(r) == Some(Shape(db))
    ensures Valid(r, db)
  {
  }

  // ----- 0003's backfill

  // Every task once, in the order in which the SELECT happens to meet them.
  ghost predicate Lists(order: seq<int>, tasks: Table) {
    && (forall i | 0 <= i < |order| :: order[i] in tasks.rows)
    && (forall id | id in tasks.rows :: id in order)
    && (forall i, j | 0 <= i < j < |order| :: order[i] != order[j])
  }

  // What the additions of 0003 leave for the backfill.
  lemma V3AdditionsAre(db: Db) returns (mid: Db)
    requires Valid(V1, db)
    ensures ApplyAll(V3_ALTER, db) == Some(mid)
    ensures ApplyAll(V3_ALTER + V3_CREATE, db) == Some(V3Created(mid))
    ensures Risks !in mid.tables && TaskEvents !in mid.tables
    ensures RisksOpen !in mid.indexes && TaskEventsTask !in mid.indexes
    ensures Tasks in mid.tables && mid.tables[Tasks].cols == BaseTable(Tasks).cols
  {
    assert Formed(db) && ShapeAt(V1) == Some(Shape(db));
    hide *;
    V1Exists();
    var shape := Shape(db);
    ShapeFormed(db);
    AlterBuilds(shape);
    V3Indexes(shape);
    V3IsSafe();
    OldTables(ApplyAll(V3_ALTER, shape).value, V1);
    AlterSafe();
    NothingIsUniform(db);
    SafeSucceeds(V3_ALTER, db, map[]);
    AlterUndone();
    NoBackfillIn(V3_ALTER);
    AllByShape(V3_ALTER, db);
    mid := ApplyAll(V3_ALTER, db).value;
    ShapeTables(mid);
    OldTables(Shape(mid), V1);
    RankOfTasks();
    CreateBuilds(mid);
    ApplyAppend(V3_ALTER, V3_CREATE, db);
  }

  lemma RankOfTasks()
    ensures Rank(Tasks) < 12
  {
  }

  lemma NoBackfillIn(ops: seq<Op>)
    requires forall op | op in ops :: Constructive(op)
    ensures forall op | op in ops :: !op.Backfill?
  {
    forall op | op in ops ensures !op.Backfill? { assert Constructive(op); }
  }

  lemma ShapeTables(db: Db)
    ensures Shape(db).tables.Keys == db.tables.Keys && Shape(db).indexes == db.indexes
    ensures forall t | t in db.tables :: Shape(db).tables[t].cols == db.tables[t].cols
  {
  }

  // A prefix of a safe migration is safe.
  lemma {:induction false} SafePrefix(a: seq<Op>, b: seq<Op>, added: map<(Tbl, Col), Value>)
    requires Safe(a + b, added)
    ensures Safe(a, added)
  {
    if a != [] {
      assert (a + b)[0] == a[0] && (a + b)[1..] == a[1..] + b;
      match a[0]
      case AddColumn(t, c, column) => SafePrefix(a[1..], b, added[(t, c) := Fill(column.default)]);
      case AddCheck(_, _, _) => SafePrefix(a[1..], b, added);
      case CreateTable(_, _, _, _) => SafePrefix(a[1..], b, added);
      case CreateIndex(_, _) => SafePrefix(a[1..], b, added);
      case _ =>
    }
  }

  lemma AlterSafe()
    ensures Safe(V3_ALTER, map[])
  {
    hide Safe, V3_ALTER, V3_CREATE;
    V3IsSafe();
    SafePrefix(V3_ALTER, V3_CREATE, map[]);
  }

  lemma EventColumns()
    ensures BaseTable(TaskEvents).cols ==
            map[Id := REQ, TaskId := Fk(Tasks), FromStatus := OPT, ToStatus := REQ, Actor := OPT, At := STAMP]
    ensures BaseTable(TaskEvents).checks == map[] && BaseTable(TaskEvents).uniques == {}
    ensures BaseTable(TaskEvents).rows == map[]
    ensures Status in BaseTable(Tasks).cols && !BaseTable(Tasks).cols[Status].nullable
  {
  }

  lemma SyntheticOk(tasks: Table, events: Table, tables: map<Tbl, Table>, order: seq<int>, e: int, now: int)
    requires 1 <= e <= |order| && Visits(tasks, order)
    requires tasks.rows[order[e - 1]][Status] != Null
    requires Tasks in tables && tables[Tasks] == tasks
    requires events.checks == map[]
    requires events.cols ==
             map[Id := REQ, TaskId := Fk(Tasks), FromStatus := OPT, ToStatus := REQ, Actor := OPT, At := STAMP]
    ensures RowOk(e, Synthetic(tasks, order, e, now), events, tables)
  {
  }

  /** The backfill succeeds over any valid tasks. */
  lemma BackfillWorks(d: Db, order: seq<int>, now: int)
    requires Formed(d) && Holds(d) && Tasks in d.tables && TaskEvents in d.tables
    requires d.tables[TaskEvents] == BaseTable(TaskEvents) && d.tables[Tasks].cols == BaseTable(Tasks).cols
    requires Lists(order, d.tables[Tasks])
    ensures Visits(d.tables[Tasks], order)
    ensures Fits(Backfill(order, now), d) && Allows(Backfill(order, now), d)
  {
    hide BaseTable, Holds, Formed, RowOk, Synthetic;
    EventColumns();
    var tasks, events := d.tables[Tasks], d.tables[TaskEvents];
    forall i | 0 <= i < |order| ensures Status in tasks.rows[order[i]] && tasks.rows[order[i]][Status] != Null {
      StatusStored(d, order[i]);
    }
    var rows := Seeded(tasks, order, now);
    forall e | e in rows ensures RowOk(e, rows[e], events, d.tables) {
      SyntheticOk(tasks, events, d.tables, order, e, now);
    }
  }

  // status is NOT NULL
  lemma StatusStored(d: Db, id: int)
    requires Formed(d) && Holds(d) && Tasks in d.tables && d.tables[Tasks].cols == BaseTable(Tasks).cols
    requires id in d.tables[Tasks].rows
    ensures Status in d.tables[Tasks].rows[id] && d.tables[Tasks].rows[id][Status] != Null
  {
    hide BaseTable, Holds, Formed, UniqueOk;
    EventColumns();
    HoldsTable(d, Tasks);
    var tasks := d.tables[Tasks];
    assert RowOk(id, tasks.rows[id], tasks, d.tables);
  }

  /** Afterwards every task has exactly one event: origin unknown, to its stored status,
      by `backfill`. */
  lemma BackfillSeedsEveryTask(d: Db, order: seq<int>, now: int, task: int)
    requires Tasks in d.tables && TaskEvents in d.tables && Visits(d.tables[Tasks], order)
    requires Lists(order, d.tables[Tasks]) && task in d.tables[Tasks].rows && Status in d.tables[Tasks].rows[task]
    ensures var events := Effect(Backfill(order, now), d).tables[TaskEvents].rows;
            exists e | e in events ::
              && events[e] == map[Id := Int(e), TaskId := Int(task), FromStatus := Null,
                                  ToStatus := d.tables[Tasks].rows[task][Status],
                                  Actor := Text("backfill"), At := Time(now)]
              && forall f | f in events && events[f][TaskId] == Int(task) :: f == e
  {
    var i :| 0 <= i < |order| && order[i] == task;
    var events := Effect(Backfill(order, now), d).tables[TaskEvents].rows;
    assert events == Seeded(d.tables[Tasks], order, now);
    assert events[i + 1] == Synthetic(d.tables[Tasks], order, i + 1, now);
    forall f | f in events && events[f][TaskId] == Int(task) ensures f == i + 1 {
      assert order[f - 1] == task;
    }
  }

  // ----- 0003's downgrade: its tables first, then the columns they referenced

  lemma DropIndexIs(db: Db, i: Idx)
    requires i in db.indexes
    ensures Fits(DropIndex(i), db) && Allows(DropIndex(i), db)
    ensures Effect(DropIndex(i), db) == Db(db.tables, db.indexes - {i})
  {
  }

  lemma DropLeaf(db: Db, t: Tbl)
    requires t in db.tables && (forall i | i in db.indexes :: db.indexes[i].table != t)
    requires forall o | o in db.tables && o != t :: !Cites(db.tables[o].cols, t)
    ensures Fits(DropTable(t), db) && Allows(DropTable(t), db)
    ensures Effect(DropTable(t), db) == Db(db.tables - {t}, db.indexes)
  {
    assert (map i | i in db.indexes && db.indexes[i].table != t :: db.indexes[i]) == db.indexes;
  }

  // A well-formed schema cites only its own tables.
  lemma CitesInside(db: Db, t: Tbl)
    requires Formed(db) && t !in db.tables
    ensures forall o | o in db.tables :: !Cites(db.tables[o].cols, t)
    ensures forall i | i in db.indexes :: db.indexes[i].table != t
  {
    forall o | o in db.tables ensures !Cites(db.tables[o].cols, t) { FormedTable(db, o); }
  }

  lemma EventsCiteTasks()
    ensures !Cites(BaseTable(TaskEvents).cols, Risks)
  {
    EventColumns();
    hide BaseTable;
  }

  lemma V3IndexDrops(full: Db) returns (d: Db)
    requires Formed(full) && RisksOpen in full.indexes && TaskEventsTask in full.indexes
    ensures d == Db(full.tables, full.indexes - {TaskEventsTask} - {RisksOpen}) && Formed(d)
    ensures ApplyAll([] + [DropIndex(TaskEventsTask)] + [DropIndex(RisksOpen)], full) == Some(d)
  {
    hide ApplyAll, Formed, Fits, Allows, Effect;
    NoOps(full);
    var d1 := Db(full.tables, full.indexes - {TaskEventsTask});
    DropIndexIs(full, TaskEventsTask);
    Then([], full, full, DropIndex(TaskEventsTask));
    d := Db(full.tables, d1.indexes - {RisksOpen});
    DropIndexIs(d1, RisksOpen);
    Then([] + [DropIndex(TaskEventsTask)], full, d1, DropIndex(RisksOpen));
  }

  lemma V3DropsRestore(mid: Db, events: Table)
    requires Formed(mid) && Risks !in mid.tables && TaskEvents !in mid.tables
    requires RisksOpen !in mid.indexes && TaskEventsTask !in mid.indexes
    requires events.cols == BaseTable(TaskEvents).cols
    requires Formed(PutTable(V3Created(mid), TaskEvents, events))
    ensures ApplyAll(V3_DROPS, PutTable(V3Created(mid), TaskEvents, events)) == Some(mid)
  {
    var full := PutTable(V3Created(mid), TaskEvents, events);
    hide BaseTable, ApplyAll, Formed, Fits, Allows, Effect, Cites, V3_DROPS;
    CitesInside(mid, Risks);
    CitesInside(mid, TaskEvents);
    EventsCiteTasks();
    var d2 := V3IndexDrops(full);
    assert d2.indexes == mid.indexes;
    assert d2.tables - {Risks} - {TaskEvents} == mid.tables;
    assert forall o | o in d2.tables && o != Risks && o != TaskEvents :: d2.tables[o] == mid.tables[o];
    assert TaskEvents in d2.tables && d2.tables[TaskEvents] == events && Risks in d2.tables;
    DropsInOrder();
    hide *;
    V3TableDrops([] + [DropIndex(TaskEventsTask)] + [DropIndex(RisksOpen)], full, d2);
  }

  lemma V3TableDrops(ops: seq<Op>, full: Db, d2: Db)
    requires Formed(full) && ApplyAll(ops, full) == Some(d2) && Risks in d2.tables && TaskEvents in d2.tables
    requires forall i | i in d2.indexes :: d2.indexes[i].table != Risks && d2.indexes[i].table != TaskEvents
    requires forall o | o in d2.tables && o != Risks :: !Cites(d2.tables[o].cols, Risks)
    requires forall o | o in d2.tables && o != Risks && o != TaskEvents :: !Cites(d2.tables[o].cols, TaskEvents)
    ensures ApplyAll(ops + [DropTable(Risks)] + [DropTable(TaskEvents)], full) ==
            Some(Db(d2.tables - {Risks} - {TaskEvents}, d2.indexes))
  {
    hide *;
    DropLeaf(d2, Risks);
    var d3 := Db(d2.tables - {Risks}, d2.indexes);
    Then(ops, full, d2, DropTable(Risks));
    assert forall o | o in d3.tables :: d3.tables[o] == d2.tables[o];
    DropLeaf(d3, TaskEvents);
    Then(ops + [DropTable(Risks)], full, d3, DropTable(TaskEvents));
  }

  lemma DropsInOrder()
    ensures [] + [DropIndex(TaskEventsTask)] + [DropIndex(RisksOpen)] + [DropTable(Risks)] + [DropTable(TaskEvents)]
            == V3_DROPS
  {
  }

  // ----- the theorems

  // How one database of the previous revision may be upgraded.
  ghost predicate Listing(r: Rev, db: Db, order: seq<int>) {
    r == V3 ==> Tasks in db.tables && Lists(order, db.tables[Tasks])
  }

  // The log holds the synthetic events of the stored tasks and nothing else.
  ghost predicate LogSeeded(d: Db, order: seq<int>, now: int) {
    && Tasks in d.tables && TaskEvents in d.tables
    && Lists(order, d.tables[Tasks]) && Visits(d.tables[Tasks], order)
    && d.tables[TaskEvents].rows == Seeded(d.tables[Tasks], order, now)
  }

  lemma UpgradeIsAdditions(r: Rev, order: seq<int>, now: int)
    requires r != V3
    ensures Upgrade(r, order, now) == Additions(r)
  {
    hide Additions;
  }

  lemma UpgradeWithoutBackfill(r: Rev, db: Db, order: seq<int>, now: int)
    requires r != Base && r != V3 && Valid(Prev(r), db)
    ensures Formed(db) && ApplyAll(Upgrade(r, order, now), db).Some?
    ensures var d := ApplyAll(Upgrade(r, order, now), db).value;
            Valid(r, d) && Preserves(db, d) && ApplyAll(Downgrade(r), d) == Some(db)
  {
    assert Formed(db);
    UpgradeIsAdditions(r, order, now);
    hide *;
    AdditionsWork(r, db);
    DowngradeUndoes(r);
    UndoAllRestores(Additions(r), db);
  }

  lemma BackfillStep(mid: Db, order: seq<int>, now: int)
    requires Formed(mid) && Formed(V3Created(mid)) && Valid(V3, V3Created(mid))
    requires Tasks in mid.tables && mid.tables[Tasks].cols == BaseTable(Tasks).cols && Lists(order, mid.tables[Tasks])
    requires Risks !in mid.tables && TaskEvents !in mid.tables
    requires RisksOpen !in mid.indexes && TaskEventsTask !in mid.indexes
    ensures var d := V3Created(mid);
            && Apply(Backfill(order, now), d).Some?
            && var e := Apply(Backfill(order, now), d).value;
               && Formed(e) && Valid(V3, e) && ApplyAll(V3_DROPS, e) == Some(mid) && LogSeeded(e, order, now)
               && (forall t | t in mid.tables :: t in e.tables && e.tables[t] == V3Created(mid).tables[t])
  {
    var d := V3Created(mid);
    hide BaseTable, Formed, Holds, Fits, Allows, ShapeAt, ApplyAll, Seeded, Visits;
    EventColumns();
    BackfillWorks(d, order, now);
    var op := Backfill(order, now);
    assert Visits(d.tables[Tasks], order);
    StepHolds(op, d);
    var events := d.tables[TaskEvents].(rows := Seeded(d.tables[Tasks], order, now));
    var e := PutTable(d, TaskEvents, events);
    assert Apply(op, d) == Some(e);
    V3DropsRestore(mid, events);
    ShapePut(d, TaskEvents, events);
    PutSameShape(d, TaskEvents, events);
  }

  lemma PutSameShape(db: Db, t: Tbl, table: Table)
    requires t in db.tables && Bare(table) == Bare(db.tables[t])
    ensures Shape(PutTable(db, t, table)) == Shape(db)
  {
    assert Shape(PutTable(db, t, table)).tables == Shape(db).tables;
  }

  lemma UpgradeWithBackfill(db: Db, order: seq<int>, now: int)
    requires Valid(V1, db) && Listing(V3, db, order)
    ensures Formed(db) && ApplyAll(Upgrade(V3, order, now), db).Some?
    ensures var d := ApplyAll(Upgrade(V3, order, now), db).value;
            && Valid(V3, d) && Preserves(db, d) && ApplyAll(Downgrade(V3), d) == Some(db)
            && LogSeeded(d, order, now)
  {
    assert Formed(db) && Tasks in db.tables && Lists(order, db.tables[Tasks]);
    hide Formed, Valid, ApplyAll, Additions, V3_ALTER, V3_CREATE, V3_DROPS, V3_RESTORE, BaseTable, Lists, Apply;
    hide V3Created, Preserves, LogSeeded;
    AdditionsOfV3();
    AdditionsWork(V3, db);
    var mid := V3AdditionsAre(db);
    AlterUndone();
    AlterKeepsTasks(db, mid, order);
    ValidIsFormed(V3, V3Created(mid));
    BackfillStep(mid, order, now);
    var e := Apply(Backfill(order, now), V3Created(mid)).value;
    ApplyAppend(V3_ALTER + V3_CREATE, [Backfill(order, now)], db);
    ApplyOne(Backfill(order, now), V3Created(mid));
    UndoAllRestores(V3_ALTER, db);
    ApplyAppend(V3_DROPS, V3_RESTORE, e);
    PreservesBeyond(db, mid, V3Created(mid), e);
  }

  lemma ValidIsFormed(r: Rev, db: Db)
    requires Valid(r, db)
    ensures Formed(db)
  {
  }

  lemma AlterKeepsTasks(db: Db, mid: Db, order: seq<int>)
    requires Formed(db) && ApplyAll(V3_ALTER, db) == Some(mid)
    requires Tasks in db.tables && Lists(order, db.tables[Tasks])
    ensures Formed(mid) && Tasks in mid.tables && Lists(order, mid.tables[Tasks]) && Preserves(db, mid)
  {
    hide Formed, ApplyAll, V3_ALTER, V3_CREATE, V3_RESTORE;
    AlterUndone();
    AllPreserve(V3_ALTER, db);
    assert TablePreserved(db.tables[Tasks], mid.tables[Tasks]);
  }

  // The backfill only writes to a table the old database did not have.
  lemma PreservesBeyond(a: Db, mid: Db, b: Db, c: Db)
    requires Preserves(a, mid) && Preserves(a, b)
    requires forall t | t in mid.tables :: t in c.tables && t in b.tables && c.tables[t] == b.tables[t]
    ensures Preserves(a, c)
  {
    forall t | t in a.tables ensures t in c.tables && TablePreserved(a.tables[t], c.tables[t]) {
      assert TablePreserved(a.tables[t], b.tables[t]);
    }
  }

  /** Every upgrade, over arbitrary valid contents: it succeeds, gives a valid database
      of the new revision with every old value in place, and its downgrade restores
      the old database exactly. */
  lemma UpgradeWorks(r: Rev, db: Db, order: seq<int>, now: int)
    requires r != Base && Valid(Prev(r), db) && Listing(r, db, order)
    ensures Formed(db) && ApplyAll(Upgrade(r, order, now), db).Some?
    ensures var d := ApplyAll(Upgrade(r, order, now), db).value;
            Valid(r, d) && Preserves(db, d) && ApplyAll(Downgrade(r), d) == Some(db)
  {
    hide *;
    PrevOfV3();
    if r == V3 {
      UpgradeWithBackfill(db, order, now);
    } else {
      UpgradeWithoutBackfill(r, db, order, now);
    }
  }

  lemma PrevOfV3()
    ensures Prev(V3) == V1
  {
  }

  lemma FirstDropsDrop()
    ensures forall op | op in DropAll(V1_DROP_ORDER) :: Destructive(op)
    ensures forall op | op in V1_INDEX_DROPS :: Destructive(op)
  {
    hide V1_DROP_ORDER;
    var drops := DropAll(V1_DROP_ORDER);
    forall op | op in drops ensures Destructive(op) {
      var k :| 0 <= k < |drops| && drops[k] == op;
    }
  }

  lemma DowngradesDrop(r: Rev)
    ensures forall op | op in Downgrade(r) :: Destructive(op)
  {
    match r
    case Base =>
    case V1 =>
      FirstDropsDrop();
      hide DropAll, V1_DROP_ORDER, V1_INDEX_DROPS, Destructive;
    case V3 =>
    case V4 =>
    case V5 =>
    case V6 =>
    case V7 =>
  }

  // A schema is its own shape, and a valid database of its revision.
  lemma {:induction false} SchemaIsBare(r: Rev)
    ensures ShapeAt(r).Some? && Shape(ShapeAt(r).value) == ShapeAt(r).value && Valid(r, ShapeAt(r).value)
    decreases Age(r)
  {
    if r == Base {
      assert Shape(NOTHING).tables == map[];
    } else {
      hide ApplyAll, Additions, Formed, Shape, Holds;
      SchemaIsBare(Prev(r));
      SchemasExist(r);
      ShapeStep(r);
      NoBackfill(r);
      var before := ShapeAt(Prev(r)).value;
      AllByShape(Additions(r), before);
      ShapeHolds(ShapeAt(r).value);
    }
  }

  lemma DowngradeOfSchema(r: Rev)
    requires r != Base
    ensures ShapeAt(r).Some? && ShapeAt(Prev(r)).Some?
    ensures ApplyAll(Downgrade(r), ShapeAt(r).value) == ShapeAt(Prev(r))
  {
    hide *;
    SchemaIsBare(Prev(r));
    SchemaIsBare(r);
    var before := ShapeAt(Prev(r)).value;
    SchemaLists(r, before);
    UpgradeWorks(r, before, [], 0);
    UpgradeOfSchema(r);
  }

  lemma SchemaLists(r: Rev, before: Db)
    requires ShapeAt(Prev(r)) == Some(before) && Shape(before) == before
    ensures Listing(r, before, [])
  {
    hide ApplyAll, BaseTable, FirstTables, IsV1, ShapeAt, Additions;
    if r == V3 {
      V1Exists();
      RankOfTasks();
      FirstTable(before, Tasks);
      ShapeIsBare(before, Tasks);
    }
  }

  lemma ShapeIsBare(db: Db, t: Tbl)
    requires t in db.tables && Shape(db) == db
    ensures db.tables[t].rows == map[]
  {
    assert Shape(db).tables[t].rows == map[];
  }

  // With no task the backfill writes nothing.
  lemma UpgradeOfSchema(r: Rev)
    requires r != Base && ShapeAt(Prev(r)).Some? && Shape(ShapeAt(Prev(r)).value) == ShapeAt(Prev(r)).value
    requires ApplyAll(Upgrade(r, [], 0), ShapeAt(Prev(r)).value).Some?
    requires ShapeAt(r).Some? && Shape(ShapeAt(r).value) == ShapeAt(r).value
    ensures ApplyAll(Upgrade(r, [], 0), ShapeAt(Prev(r)).value) == ShapeAt(r)
  {
    var before := ShapeAt(Prev(r)).value;
    hide ApplyAll, Additions, Formed, Shape, BaseTable, ShapeAt;
    ShapeStep(r);
    if r == V3 {
      ApplyAppend(Additions(r), [Backfill([], 0)], before);
      ApplyOne(Backfill([], 0), ShapeAt(r).value);
      EmptyBackfill(ShapeAt(r).value);
    } else {
      assert Upgrade(r, [], 0) == Additions(r);
    }
  }

  lemma EmptyBackfill(d: Db)
    requires Formed(d) && Apply(Backfill([], 0), d).Some?
    ensures Apply(Backfill([], 0), d) == Some(d)
  {
    hide Formed;
    var table := d.tables[TaskEvents];
    assert Seeded(d.tables[Tasks], [], 0) == map[];
    assert d.tables[TaskEvents := table] == d.tables;
  }

  /** Every downgrade, from any valid database of its revision, whatever was written
      since: no step is refused (so no table is dropped that another still
      references), and what is left is a valid database of the previous revision
      whose values are all unchanged. */
  lemma DowngradeWorks(r: Rev, db: Db)
    requires r != Base && Valid(r, db)
    ensures Formed(db) && ApplyAll(Downgrade(r), db).Some?
    ensures var d := ApplyAll(Downgrade(r), db).value; Valid(Prev(r), d) && Preserves(d, db)
  {
    assert Formed(db) && Holds(db) && ShapeAt(r) == Some(Shape(db));
    hide *;
    ShapeFormed(db);
    DowngradesDrop(r);
    DowngradeOfSchema(r);
    DropsByShape(Downgrade(r), db);
    AllHold(Downgrade(r), db);
    AllPreserve(Downgrade(r), db);
    IsValid(Prev(r), ApplyAll(Downgrade(r), db).value);
  }

  // `alembic downgrade base`
  function DowngradeAll(r: Rev): seq<Op>
    decreases Age(r)
  {
    if r == Base then [] else Downgrade(r) + DowngradeAll(Prev(r))
  }

  lemma BaseIsNothing(db: Db)
    requires Valid(Base, db)
    ensures Formed(db) && ApplyAll([], db) == Some(NOTHING)
  {
    hide Holds;
    assert forall t | t in db.tables :: t in Shape(db).tables;
    assert db.tables == map[];
  }

  /** Downgrading all the way leaves nothing behind. */
  lemma {:induction false} DowngradeToNothing(r: Rev, db: Db)
    requires Valid(r, db)
    ensures Formed(db) && ApplyAll(DowngradeAll(r), db) == Some(NOTHING)
    decreases Age(r)
  {
    hide ApplyAll, Downgrade, Holds;
    if r == Base {
      BaseIsNothing(db);
    } else {
      assert Age(Prev(r)) < Age(r);
      hide Age, Valid, Formed, ShapeAt;
      DowngradeWorks(r, db);
      var d := ApplyAll(Downgrade(r), db).value;
      DowngradeToNothing(Prev(r), d);
      ApplyAppend(Downgrade(r), DowngradeAll(Prev(r)), db);
    }
  }
}
