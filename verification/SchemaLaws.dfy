/** What every list of schema operations does to arbitrary contents: constructive
    operations can be undone exactly and keep every stored value, and no operation
    breaks a constraint. */
module SchemaLaws {
  import opened Prelude
  import opened Schema

  // ----- lists of operations

  lemma {:induction false} ApplyAppend(a: seq<Op>, b: seq<Op>, db: Db)
    requires Formed(db)
    ensures ApplyAll(a + b, db) ==
            match ApplyAll(a, db) case None => None case Some(mid) => ApplyAll(b, mid)
    decreases |a|
  {
    if a == [] {
      assert a + b == b;
    } else {
      assert (a + b)[0] == a[0] && (a + b)[1..] == a[1..] + b;
      ApplyFormed(a[0], db);
      hide Apply, Formed;
      if Apply(a[0], db).Some? { ApplyAppend(a[1..], b, Apply(a[0], db).value); }
    }
  }

  lemma ApplyOne(op: Op, db: Db)
    requires Formed(db)
    ensures ApplyAll([op], db) == Apply(op, db)
  {
    ApplyFormed(op, db);
    hide Apply, Formed;
    assert [op][1..] == [];
    if Apply(op, db).Some? { assert ApplyAll([], Apply(op, db).value) == Apply(op, db); }
  }

  lemma FormedTable(db: Db, t: Tbl)
    requires Formed(db) && t in db.tables
    ensures TableFormed(db.tables[t], db.tables)
  {
  }

  // ----- undoing

  predicate Constructive(op: Op) {
    op.CreateTable? || op.AddColumn? || op.AddCheck? || op.CreateIndex?
  }

  function Undo(op: Op): Op
    requires Constructive(op)
  {
    match op
    case CreateTable(t, _, _, _) => DropTable(t)
    case AddColumn(t, c, _) => DropColumn(t, c)
    case AddCheck(t, c, _) => DropCheck(t, c)
    case CreateIndex(i, _) => DropIndex(i)
  }

  function UndoAll(ops: seq<Op>): seq<Op>
    requires forall op | op in ops :: Constructive(op)
  {
    if ops == [] then [] else UndoAll(ops[1..]) + [Undo(ops[0])]
  }

  lemma CreatedIsUnreferenced(db: Db, op: Op)
    requires Formed(db) && op.CreateTable? && Fits(op, db)
    ensures Fits(DropTable(op.t), Effect(op, db))
  {
    forall other | other in db.tables ensures TableFormed(db.tables[other], db.tables) {}
    hide Formed;
  }

  lemma CreatedThenDropped(db: Db, op: Op)
    requires Formed(db) && op.CreateTable? && Fits(op, db)
    ensures Effect(DropTable(op.t), Effect(op, db)) == db
  {
    hide Formed, Fits;
    FreshTable(db, op);
    var table := Table(op.cols, op.checks, op.uniques, map[]);
    var after := PutTable(db, op.t, table);
    assert Effect(op, db) == after;
    assert after.tables - {op.t} == db.tables;
    assert (map i | i in after.indexes && after.indexes[i].table != op.t :: after.indexes[i]) == db.indexes;
  }

  lemma FreshTable(db: Db, op: Op)
    requires Formed(db) && op.CreateTable? && Fits(op, db)
    ensures op.t !in db.tables && forall i | i in db.indexes :: db.indexes[i].table != op.t
  {
  }

  lemma UndoCreate(db: Db, op: Op)
    requires Formed(db) && op.CreateTable? && Fits(op, db)
    ensures Formed(Effect(op, db)) && Apply(DropTable(op.t), Effect(op, db)) == Some(db)
  {
    hide Fits, Effect, Formed;
    ApplyFormed(op, db);
    CreatedIsUnreferenced(db, op);
    CreatedThenDropped(db, op);
  }

  lemma NarrowWidened(table: Table, tables: map<Tbl, Table>, c: Col, column: Column)
    requires TableFormed(table, tables) && c !in table.cols
    ensures Narrowed(Widened(table, c, column), c) == table
  {
    var wide := Widened(table, c, column);
    assert wide.cols - {c} == table.cols;
    assert wide.checks - {c} == table.checks;
    assert (set key | key in wide.uniques && c !in key) == table.uniques;
    forall id | id in table.rows ensures wide.rows[id] - {c} == table.rows[id] {
      assert c !in table.rows[id];
    }
  }

  lemma AddFacts(db: Db, t: Tbl, c: Col, column: Column)
    requires Formed(db) && Fits(AddColumn(t, c, column), db)
    ensures t in db.tables && c !in db.tables[t].cols && c != Id
    ensures Narrowed(Widened(db.tables[t], c, column), c) == db.tables[t]
    ensures forall i | i in db.indexes :: db.indexes[i] != IndexDef(t, c)
  {
    hide Widened, Narrowed;
    FormedTable(db, t);
    NarrowWidened(db.tables[t], db.tables, c, column);
  }

  lemma AddedThenDropped(db: Db, t: Tbl, c: Col, column: Column)
    requires Formed(db) && Fits(AddColumn(t, c, column), db)
    ensures t in db.tables
    ensures Effect(DropColumn(t, c), Effect(AddColumn(t, c, column), db)) == db
  {
    hide Formed, Fits, Widened, Narrowed;
    AddFacts(db, t, c, column);
    var wide := Widened(db.tables[t], c, column);
    var after := PutTable(db, t, wide);
    assert Effect(AddColumn(t, c, column), db) == after;
    assert Effect(DropColumn(t, c), after).tables == PutTable(after, t, Narrowed(wide, c)).tables;
    assert Effect(DropColumn(t, c), after).indexes == db.indexes;
    hide Effect;
    PutBack(db, t, wide);
  }

  lemma PutBack(db: Db, t: Tbl, table: Table)
    requires t in db.tables
    ensures PutTable(PutTable(db, t, table), t, db.tables[t]) == db
  {
    assert db.tables[t := table][t := db.tables[t]] == db.tables;
  }

  lemma UndoAdd(db: Db, t: Tbl, c: Col, column: Column)
    requires Formed(db) && Fits(AddColumn(t, c, column), db)
    ensures t in db.tables && Formed(Effect(AddColumn(t, c, column), db))
    ensures Apply(DropColumn(t, c), Effect(AddColumn(t, c, column), db)) == Some(db)
  {
    AddFacts(db, t, c, column);
    AddFormed(db, t, c, column);
    assert c in Widened(db.tables[t], c, column).cols;
    hide Formed, Narrowed, Widened, Cites;
    AddedThenDropped(db, t, c, column);
    ColumnDrops(PutTable(db, t, Widened(db.tables[t], c, column)), t, c);
  }

  lemma ColumnDrops(db: Db, t: Tbl, c: Col)
    requires t in db.tables && c in db.tables[t].cols && c != Id
    ensures Fits(DropColumn(t, c), db) && Allows(DropColumn(t, c), db)
  {
    hide Declares, RefersWithin, HasLog, AllPass, Seeds, Points, Cites;
  }

  lemma UndoCheck(db: Db, t: Tbl, c: Col, rule: Rule)
    requires Formed(db) && Fits(AddCheck(t, c, rule), db)
    ensures t in db.tables && Formed(Effect(AddCheck(t, c, rule), db))
    ensures Apply(DropCheck(t, c), Effect(AddCheck(t, c, rule), db)) == Some(db)
  {
    hide Formed;
    var table := db.tables[t];
    FormedTable(db, t);
    RecheckFormed(db, t, table.checks[c := rule]);
    assert table.checks[c := rule] - {c} == table.checks;
    PutBack(db, t, table.(checks := table.checks[c := rule]));
  }

  lemma UndoIndex(db: Db, i: Idx, def: IndexDef)
    requires Formed(db) && Fits(CreateIndex(i, def), db)
    ensures Formed(Effect(CreateIndex(i, def), db))
    ensures Apply(DropIndex(i), Effect(CreateIndex(i, def), db)) == Some(db)
  {
    hide Formed;
    ApplyFormed(CreateIndex(i, def), db);
    assert db.indexes[i := def] - {i} == db.indexes;
  }

  /** Whatever the rows, undoing a constructive operation restores the database. */
  lemma UndoRestores(op: Op, db: Db)
    requires Formed(db) && Constructive(op) && Apply(op, db).Some?
    ensures Formed(Apply(op, db).value) && Apply(Undo(op), Apply(op, db).value) == Some(db)
  {
    hide Formed, Fits, Allows, Effect;
    match op
    case CreateTable(_, _, _, _) => UndoCreate(db, op);
    case AddColumn(t, c, column) => UndoAdd(db, t, c, column);
    case AddCheck(t, c, rule) => UndoCheck(db, t, c, rule);
    case CreateIndex(i, def) => UndoIndex(db, i, def);
  }

  /** ... and so does undoing a whole migration, last operation first. */
  lemma {:induction false} UndoAllRestores(ops: seq<Op>, db: Db)
    requires Formed(db) && (forall op | op in ops :: Constructive(op)) && ApplyAll(ops, db).Some?
    ensures ApplyAll(UndoAll(ops), ApplyAll(ops, db).value) == Some(db)
    decreases |ops|
  {
    if ops != [] {
      UndoRestores(ops[0], db);
      hide Apply, Formed, Undo;
      var next := Apply(ops[0], db).value;
      UndoAllRestores(ops[1..], next);
      ApplyAppend(UndoAll(ops[1..]), [Undo(ops[0])], ApplyAll(ops, db).value);
      ApplyOne(Undo(ops[0]), next);
    }
  }

  // ----- stored values

  // Every table, row and column of `a` is in `b` with the same values.
  ghost predicate Preserves(a: Db, b: Db) {
    && a.tables.Keys <= b.tables.Keys
    && forall t | t in a.tables :: TablePreserved(a.tables[t], b.tables[t])
  }

  ghost predicate TablePreserved(a: Table, b: Table) {
    && a.rows.Keys == b.rows.Keys
    && forall id, c | id in a.rows && c in a.rows[id] :: c in b.rows[id] && b.rows[id][c] == a.rows[id][c]
  }

  predicate Destructive(op: Op) {
    op.DropTable? || op.DropColumn? || op.DropCheck? || op.DropIndex?
  }

  lemma PutPreserves(db: Db, t: Tbl, table: Table)
    ensures (t in db.tables ==> TablePreserved(db.tables[t], table)) ==> Preserves(db, PutTable(db, t, table))
    ensures t in db.tables && TablePreserved(table, db.tables[t]) ==> Preserves(PutTable(db, t, table), db)
  {
  }

  lemma WidenedPreserves(table: Table, tables: map<Tbl, Table>, c: Col, column: Column)
    requires TableFormed(table, tables) && c !in table.cols
    ensures TablePreserved(table, Widened(table, c, column))
  {
  }

  lemma NarrowedPreserves(table: Table, c: Col)
    ensures TablePreserved(Narrowed(table, c), table)
  {
  }

  lemma StepPreserves(op: Op, db: Db)
    requires Formed(db) && Apply(op, db).Some?
    ensures Constructive(op) ==> Preserves(db, Apply(op, db).value)
    ensures Destructive(op) ==> Preserves(Apply(op, db).value, db)
  {
    hide Formed, Widened, Narrowed, TableFormed, Allows;
    match op
    case CreateTable(t, cols, checks, uniques) => PutPreserves(db, t, Table(cols, checks, uniques, map[]));
    case DropTable(_) =>
    case AddColumn(t, c, column) =>
      FormedTable(db, t);
      WidenedPreserves(db.tables[t], db.tables, c, column);
      PutPreserves(db, t, Widened(db.tables[t], c, column));
    case DropColumn(t, c) =>
      NarrowedPreserves(db.tables[t], c);
      PutPreserves(db, t, Narrowed(db.tables[t], c));
    case AddCheck(t, c, rule) =>
    case DropCheck(t, c) =>
    case CreateIndex(_, _) =>
    case DropIndex(_) =>
    case Backfill(_, _) =>
  }

  lemma PreservesTrans(a: Db, b: Db, c: Db)
    requires Preserves(a, b) && Preserves(b, c)
    ensures Preserves(a, c)
  {
    forall t | t in a.tables ensures TablePreserved(a.tables[t], c.tables[t]) {
      assert TablePreserved(a.tables[t], b.tables[t]) && TablePreserved(b.tables[t], c.tables[t]);
    }
  }

  /** Constructive operations keep every stored value; destructive ones change none of
      the values they leave. */
  lemma {:induction false} AllPreserve(ops: seq<Op>, db: Db)
    requires Formed(db) && ApplyAll(ops, db).Some?
    ensures (forall op | op in ops :: Constructive(op)) ==> Preserves(db, ApplyAll(ops, db).value)
    ensures (forall op | op in ops :: Destructive(op)) ==> Preserves(ApplyAll(ops, db).value, db)
    decreases |ops|
  {
    if ops != [] {
      StepPreserves(ops[0], db);
      ApplyFormed(ops[0], db);
      hide Apply, Formed, Preserves;
      var next := Apply(ops[0], db).value;
      AllPreserve(ops[1..], next);
      var last := ApplyAll(ops, db).value;
      if forall op | op in ops :: Constructive(op) { PreservesTrans(db, next, last); }
      if forall op | op in ops :: Destructive(op) { PreservesTrans(last, next, db); }
    }
  }

  // ----- constraints

  // Rows keep pointing at something when tables only gain rows.
  ghost predicate Reaches(before: map<Tbl, Table>, after: map<Tbl, Table>, table: Table) {
    forall c | c in table.cols && table.cols[c].ref.Some? && table.cols[c].ref.value in before ::
      && table.cols[c].ref.value in after
      && before[table.cols[c].ref.value].rows.Keys <= after[table.cols[c].ref.value].rows.Keys
  }

  lemma RowStaysOk(id: int, row: Row, table: Table, before: map<Tbl, Table>, after: map<Tbl, Table>)
    requires table.checks.Keys <= table.cols.Keys
    requires RowOk(id, row, table, before) && Reaches(before, after, table)
    ensures RowOk(id, row, table, after)
  {
  }

  lemma TableStaysOk(table: Table, before: map<Tbl, Table>, after: map<Tbl, Table>)
    requires TableFormed(table, before) && TableHolds(table, before)
    requires TableFormed(table, after) && Reaches(before, after, table)
    ensures TableHolds(table, after)
  {
    hide RowOk, UniqueOk, Reaches;
    forall id | id in table.rows ensures RowOk(id, table.rows[id], table, after) {
      RowStaysOk(id, table.rows[id], table, before, after);
    }
  }

  // Replacing one table by one that holds, and keeps the rows others point at.
  lemma PutHolds(db: Db, t: Tbl, table: Table)
    requires Holds(db) && Formed(PutTable(db, t, table))
    requires TableFormed(table, db.tables[t := table]) && TableHolds(table, db.tables[t := table])
    requires t in db.tables ==> db.tables[t].rows.Keys <= table.rows.Keys
    ensures Holds(PutTable(db, t, table))
  {
    hide RowOk, UniqueOk, TableHolds, TableFormed;
    var tables := db.tables[t := table];
    forall o | o in tables ensures TableHolds(tables[o], tables) {
      if o != t {
        assert TableFormed(tables[o], PutTable(db, t, table).tables);
        TableStaysOk(db.tables[o], db.tables, tables);
      }
    }
  }

  lemma DropTableHolds(db: Db, t: Tbl)
    requires Holds(db) && Fits(DropTable(t), db)
    ensures Formed(Effect(DropTable(t), db)) && Holds(Effect(DropTable(t), db))
  {
    DropFormed(db, t);
    hide RowOk, UniqueOk, TableHolds, Formed;
    var after := Effect(DropTable(t), db);
    forall o | o in after.tables ensures TableHolds(after.tables[o], after.tables) {
      FormedTable(db, o);
      FormedTable(after, o);
      TableStaysOk(db.tables[o], db.tables, after.tables);
    }
  }

  lemma WidenedRow(id: int, row: Row, table: Table, tables: map<Tbl, Table>, c: Col, column: Column)
    requires table.checks.Keys <= table.cols.Keys && c !in table.cols && c != Id
    requires RowOk(id, row, table, tables)
    requires (Fill(column.default) == Null ==> column.nullable) && Points(Fill(column.default), column.ref, tables)
    ensures RowOk(id, row[c := Fill(column.default)], Widened(table, c, column), tables)
  {
    hide Fill, Points, Passes;
  }

  lemma SameUnique(a: Table, b: Table, key: set<Col>)
    requires key <= a.cols.Keys && key <= b.cols.Keys && a.rows.Keys == b.rows.Keys
    requires forall id | id in a.rows :: a.rows[id].Keys == a.cols.Keys && b.rows[id].Keys == b.cols.Keys
    requires forall id, c | id in a.rows && c in key :: b.rows[id][c] == a.rows[id][c]
    requires UniqueOk(a, key)
    ensures UniqueOk(b, key)
  {
  }

  lemma WidenedHolds(table: Table, tables: map<Tbl, Table>, c: Col, column: Column)
    requires TableFormed(table, tables) && TableHolds(table, tables) && c !in table.cols
    requires column.ref.Some? ==> column.ref.value in tables
    requires table.rows != map[] ==>
               (Fill(column.default) == Null ==> column.nullable) && Points(Fill(column.default), column.ref, tables)
    ensures TableFormed(Widened(table, c, column), tables) && TableHolds(Widened(table, c, column), tables)
  {
    WidenedRows(table, tables, c, column);
    WidenedUniques(table, tables, c, column);
    hide RowOk, UniqueOk;
  }

  lemma WidenedRows(table: Table, tables: map<Tbl, Table>, c: Col, column: Column)
    requires TableFormed(table, tables) && TableHolds(table, tables) && c !in table.cols
    requires table.rows != map[] ==>
               (Fill(column.default) == Null ==> column.nullable) && Points(Fill(column.default), column.ref, tables)
    ensures var wide := Widened(table, c, column);
            wide.checks.Keys <= wide.cols.Keys && forall id | id in wide.rows :: RowOk(id, wide.rows[id], wide, tables)
  {
    var wide := Widened(table, c, column);
    hide RowOk, UniqueOk, Points, Fill;
    forall id | id in wide.rows ensures RowOk(id, wide.rows[id], wide, tables) {
      assert table.rows != map[];
      WidenedRow(id, table.rows[id], table, tables, c, column);
    }
  }

  lemma WidenedUniques(table: Table, tables: map<Tbl, Table>, c: Col, column: Column)
    requires TableFormed(table, tables) && TableHolds(table, tables) && c !in table.cols
    requires column.ref.Some? ==> column.ref.value in tables
    ensures TableFormed(Widened(table, c, column), tables)
    ensures var wide := Widened(table, c, column); forall key | key in wide.uniques :: UniqueOk(wide, key)
  {
    var wide := Widened(table, c, column);
    hide RowOk, UniqueOk, Points, Fill;
    forall key | key in wide.uniques ensures UniqueOk(wide, key) {
      SameUnique(table, wide, key);
    }
  }

  lemma NarrowedRow(id: int, row: Row, table: Table, tables: map<Tbl, Table>, c: Col)
    requires table.checks.Keys <= table.cols.Keys
    requires RowOk(id, row, table, tables)
    ensures RowOk(id, row - {c}, Narrowed(table, c), tables)
  {
    hide Points, Passes;
  }

  lemma NarrowedHolds(table: Table, tables: map<Tbl, Table>, c: Col)
    requires TableFormed(table, tables) && TableHolds(table, tables) && c != Id
    ensures TableFormed(Narrowed(table, c), tables) && TableHolds(Narrowed(table, c), tables)
  {
    NarrowedRows(table, tables, c);
    NarrowedUniques(table, tables, c);
    hide RowOk, UniqueOk;
  }

  lemma NarrowedRows(table: Table, tables: map<Tbl, Table>, c: Col)
    requires TableFormed(table, tables) && TableHolds(table, tables)
    ensures var thin := Narrowed(table, c);
            thin.checks.Keys <= thin.cols.Keys && forall id | id in thin.rows :: RowOk(id, thin.rows[id], thin, tables)
  {
    var thin := Narrowed(table, c);
    hide RowOk, UniqueOk;
    forall id | id in thin.rows ensures RowOk(id, thin.rows[id], thin, tables) {
      NarrowedRow(id, table.rows[id], table, tables, c);
    }
  }

  lemma NarrowedUniques(table: Table, tables: map<Tbl, Table>, c: Col)
    requires TableFormed(table, tables) && TableHolds(table, tables) && c != Id
    ensures TableFormed(Narrowed(table, c), tables)
    ensures var thin := Narrowed(table, c); forall key | key in thin.uniques :: UniqueOk(thin, key)
  {
    var thin := Narrowed(table, c);
    hide RowOk, UniqueOk;
    forall key | key in thin.uniques ensures UniqueOk(thin, key) {
      SameUnique(table, thin, key);
    }
  }

  lemma RecheckHolds(table: Table, tables: map<Tbl, Table>, checks: map<Col, Rule>)
    requires TableFormed(table, tables) && TableHolds(table, tables) && checks.Keys <= table.cols.Keys
    requires forall c | c in checks ::
               (c in table.checks && table.checks[c] == checks[c]) || AllPass(table, c, checks[c])
    ensures TableFormed(table.(checks := checks), tables) && TableHolds(table.(checks := checks), tables)
  {
    var after := table.(checks := checks);
    assert TableFormed(after, tables);
    hide UniqueOk, Passes, Points;
    forall id | id in after.rows ensures RowOk(id, after.rows[id], after, tables) {
      assert RowOk(id, table.rows[id], table, tables);
    }
    hide RowOk;
    forall key | key in after.uniques ensures UniqueOk(after, key) {
      SameUnique(table, after, key);
    }
  }

  lemma SeededHolds(order: seq<int>, now: int, tasks: Table, events: Table, tables: map<Tbl, Table>)
    requires TableFormed(events, tables) && events.uniques == {} && Seeds(order, now, tasks, events, tables)
    ensures var table := events.(rows := Seeded(tasks, order, now));
            TableFormed(table, tables) && TableHolds(table, tables)
  {
    var table := events.(rows := Seeded(tasks, order, now));
    hide Passes, Points, Seeded;
    forall id | id in table.rows ensures RowOk(id, table.rows[id], table, tables) {
      assert RowOk(id, table.rows[id], events, tables);
    }
  }

  // Replacing a table by one that holds beside the old tables, with no fewer rows.
  lemma ReplaceHolds(db: Db, t: Tbl, table: Table)
    requires Holds(db) && t in db.tables && Formed(PutTable(db, t, table))
    requires TableFormed(table, db.tables) && TableHolds(table, db.tables)
    requires db.tables[t].rows.Keys <= table.rows.Keys
    ensures Holds(PutTable(db, t, table))
  {
    FormedTable(PutTable(db, t, table), t);
    hide RowOk, UniqueOk, TableHolds, Formed, TableFormed;
    TableStaysOk(table, db.tables, db.tables[t := table]);
    PutHolds(db, t, table);
  }

  /** No operation that succeeds leaves a violated constraint behind. */
  lemma StepHolds(op: Op, db: Db)
    requires Holds(db) && Apply(op, db).Some?
    ensures Formed(Apply(op, db).value) && Holds(Apply(op, db).value)
  {
    ApplyFormed(op, db);
    hide Holds, TableFormed, TableHolds, Widened, Narrowed, Seeds, AllPass, Formed;
    match op
    case CreateTable(t, cols, checks, uniques) => CreateHolds(db, op);
    case DropTable(t) => DropTableHolds(db, t);
    case AddColumn(t, c, column) => AddHolds(db, t, c, column);
    case DropColumn(t, c) => DropColumnHolds(db, t, c);
    case AddCheck(t, c, rule) => CheckHolds(db, t, c, rule);
    case DropCheck(t, c) => UncheckHolds(db, t, c);
    case CreateIndex(_, _) => IndexesHold(db, Effect(op, db));
    case DropIndex(_) => IndexesHold(db, Effect(op, db));
    case Backfill(order, now) => BackfillHolds(db, order, now);
  }

  // Indexes constrain no row.
  lemma IndexesHold(a: Db, b: Db)
    requires Formed(a) && Formed(b) && Holds(a) && a.tables == b.tables
    ensures Holds(b)
  {
  }

  lemma HoldsTable(db: Db, t: Tbl)
    requires Holds(db) && t in db.tables
    ensures Formed(db) && TableFormed(db.tables[t], db.tables) && TableHolds(db.tables[t], db.tables)
  {
  }

  lemma CreateHolds(db: Db, op: Op)
    requires Holds(db) && op.CreateTable? && Fits(op, db) && Formed(Effect(op, db))
    ensures Holds(Effect(op, db))
  {
    hide RowOk, UniqueOk, Passes, Points;
    EmptyHolds(Effect(op, db), op.t);
    hide TableHolds, TableFormed, Formed;
    PutHolds(db, op.t, Table(op.cols, op.checks, op.uniques, map[]));
  }

  lemma AddHolds(db: Db, t: Tbl, c: Col, column: Column)
    requires Holds(db) && Fits(AddColumn(t, c, column), db) && Allows(AddColumn(t, c, column), db)
    ensures t in db.tables && Formed(PutTable(db, t, Widened(db.tables[t], c, column)))
    ensures Holds(PutTable(db, t, Widened(db.tables[t], c, column)))
  {
    hide Holds, Formed, TableFormed, TableHolds, Widened, Fill, Points;
    HoldsTable(db, t);
    AddFormed(db, t, c, column);
    WidenedHolds(db.tables[t], db.tables, c, column);
    SameRows(db.tables[t], c, column);
    ReplaceHolds(db, t, Widened(db.tables[t], c, column));
  }

  lemma DropColumnHolds(db: Db, t: Tbl, c: Col)
    requires Holds(db) && Fits(DropColumn(t, c), db)
    ensures t in db.tables && Formed(Effect(DropColumn(t, c), db)) && Holds(Effect(DropColumn(t, c), db))
  {
    hide Holds, Formed, TableFormed, TableHolds, Narrowed;
    HoldsTable(db, t);
    NarrowFormed(db, t, c);
    var thin := Narrowed(db.tables[t], c);
    var bare, after := Db(db.tables, map[]), Effect(DropColumn(t, c), db);
    BareFormed(db);
    IndexesHold(db, bare);
    NarrowedHolds(db.tables[t], db.tables, c);
    SameRows(db.tables[t], c, Column(true, NoDefault, None));
    BareFormed(after);
    assert PutTable(bare, t, thin) == Db(after.tables, map[]);
    ReplaceHolds(bare, t, thin);
    IndexesHold(PutTable(bare, t, thin), after);
  }

  lemma BareFormed(db: Db)
    requires Formed(db)
    ensures Formed(Db(db.tables, map[]))
  {
  }

  lemma CheckHolds(db: Db, t: Tbl, c: Col, rule: Rule)
    requires Holds(db) && Fits(AddCheck(t, c, rule), db) && Allows(AddCheck(t, c, rule), db)
    ensures t in db.tables
    ensures var after := PutTable(db, t, db.tables[t].(checks := db.tables[t].checks[c := rule]));
            Formed(after) && Holds(after)
  {
    hide Holds, Formed, TableFormed, TableHolds, AllPass;
    HoldsTable(db, t);
    ChecksFormed(db.tables[t], db.tables, c, rule);
    RecheckFormed(db, t, db.tables[t].checks[c := rule]);
    RecheckHolds(db.tables[t], db.tables, db.tables[t].checks[c := rule]);
    ReplaceHolds(db, t, db.tables[t].(checks := db.tables[t].checks[c := rule]));
  }

  lemma UncheckHolds(db: Db, t: Tbl, c: Col)
    requires Holds(db) && Fits(DropCheck(t, c), db)
    ensures t in db.tables
    ensures var after := PutTable(db, t, db.tables[t].(checks := db.tables[t].checks - {c}));
            Formed(after) && Holds(after)
  {
    hide Holds, Formed, TableFormed, TableHolds, AllPass;
    HoldsTable(db, t);
    ChecksFormed(db.tables[t], db.tables, c, NonNegative);
    RecheckFormed(db, t, db.tables[t].checks - {c});
    RecheckHolds(db.tables[t], db.tables, db.tables[t].checks - {c});
    ReplaceHolds(db, t, db.tables[t].(checks := db.tables[t].checks - {c}));
  }

  lemma BackfillHolds(db: Db, order: seq<int>, now: int)
    requires Holds(db) && Fits(Backfill(order, now), db) && Allows(Backfill(order, now), db)
    ensures Formed(Effect(Backfill(order, now), db)) && Holds(Effect(Backfill(order, now), db))
  {
    hide Holds, Formed, TableFormed, TableHolds, RowOk, Seeded;
    assert HasLog(db) && Seeds(order, now, db.tables[Tasks], db.tables[TaskEvents], db.tables);
    SeedHolds(db, db.tables[TaskEvents], db.tables[Tasks], order, now);
  }

  lemma SeedHolds(db: Db, events: Table, tasks: Table, order: seq<int>, now: int)
    requires Holds(db) && HasLog(db) && db.tables[TaskEvents] == events
    requires Seeds(order, now, tasks, events, db.tables)
    ensures var after := PutTable(db, TaskEvents, events.(rows := Seeded(tasks, order, now)));
            Formed(after) && Holds(after)
  {
    assert events.rows == map[] && events.uniques == {} && Visits(tasks, order);
    assert events.cols.Keys == {Id, TaskId, FromStatus, ToStatus, Actor, At};
    hide *;
    HoldsTable(db, TaskEvents);
    SeedFormed(db, events, tasks, order, now);
    SeededHolds(order, now, tasks, events, db.tables);
    ReplaceHolds(db, TaskEvents, events.(rows := Seeded(tasks, order, now)));
  }

  lemma EmptyHolds(db: Db, t: Tbl)
    requires Formed(db) && t in db.tables && db.tables[t].rows == map[]
    ensures TableFormed(db.tables[t], db.tables) && TableHolds(db.tables[t], db.tables)
  {
  }

  lemma SameRows(table: Table, c: Col, column: Column)
    ensures Widened(table, c, column).rows.Keys == table.rows.Keys
    ensures Narrowed(table, c).rows.Keys == table.rows.Keys
  {
  }

  lemma ChecksFormed(table: Table, tables: map<Tbl, Table>, c: Col, rule: Rule)
    requires TableFormed(table, tables)
    ensures (table.checks - {c}).Keys <= table.cols.Keys
    ensures c in table.cols ==> table.checks[c := rule].Keys <= table.cols.Keys
  {
  }
}
