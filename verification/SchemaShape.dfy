/** Which operations succeed: the schema of a database, without its rows, decides for
    every destructive operation, and for the constructive ones that a migration may
    safely run over existing rows. */
module SchemaShape {
  import opened Prelude
  import opened Schema
  import opened SchemaLaws

  lemma {:induction false} AllHold(ops: seq<Op>, db: Db)
    requires Holds(db) && ApplyAll(ops, db).Some?
    ensures Holds(ApplyAll(ops, db).value)
    decreases |ops|
  {
    if ops != [] {
      StepHolds(ops[0], db);
      hide Apply, Holds, Formed;
      AllHold(ops[1..], Apply(ops[0], db).value);
    }
  }

  // ----- the schema without the rows

  function Bare(table: Table): Table {
    table.(rows := map[])
  }

  function Shape(db: Db): Db {
    Db(map t | t in db.tables :: Bare(db.tables[t]), db.indexes)
  }

  lemma ShapeFormed(db: Db)
    requires Formed(db)
    ensures Formed(Shape(db))
  {
    forall t | t in db.tables ensures TableFormed(Bare(db.tables[t]), Shape(db).tables) {
      FormedTable(db, t);
    }
  }

  // A schema without rows violates nothing.
  lemma ShapeHolds(db: Db)
    requires Formed(db)
    ensures Formed(Shape(db)) && Holds(Shape(db))
  {
    ShapeFormed(db);
    hide RowOk, UniqueOk;
  }

  lemma FitsByShape(op: Op, db: Db)
    ensures Fits(op, Shape(db)) <==> Fits(op, db)
  {
    hide Cites;
    assert forall o | o in db.tables :: Shape(db).tables[o].cols == db.tables[o].cols;
    match op
    case CreateTable(_, _, _, _) =>
    case DropTable(t) =>
      assert forall o | o in db.tables && o != t :: Cites(db.tables[o].cols, t) <==> Cites(Shape(db).tables[o].cols, t);
    case AddColumn(_, _, _) =>
    case DropColumn(_, _) =>
    case AddCheck(_, _, _) =>
    case DropCheck(_, _) =>
    case CreateIndex(_, _) =>
    case DropIndex(_) =>
    case Backfill(_, _) =>
  }

  lemma EffectByShape(op: Op, db: Db)
    requires Fits(op, db) && !op.Backfill?
    ensures Fits(op, Shape(db)) && Effect(op, Shape(db)) == Shape(Effect(op, db))
  {
    FitsByShape(op, db);
    match op
    case CreateTable(t, cols, checks, uniques) => ShapePut(db, t, Table(cols, checks, uniques, map[]));
    case DropTable(t) =>
      assert Shape(db).tables - {t} == Shape(Effect(op, db)).tables;
    case AddColumn(t, c, column) => ShapePut(db, t, Widened(db.tables[t], c, column));
    case DropColumn(t, c) => ShapePut(db, t, Narrowed(db.tables[t], c));
    case AddCheck(t, c, rule) => ShapePut(db, t, db.tables[t].(checks := db.tables[t].checks[c := rule]));
    case DropCheck(t, c) => ShapePut(db, t, db.tables[t].(checks := db.tables[t].checks - {c}));
    case CreateIndex(_, _) =>
    case DropIndex(_) =>
  }

  lemma ShapePut(db: Db, t: Tbl, table: Table)
    ensures Shape(PutTable(db, t, table)) == PutTable(Shape(db), t, Bare(table))
  {
    assert Shape(PutTable(db, t, table)).tables == Shape(db).tables[t := Bare(table)];
  }

  // On a schema without rows only the schema can refuse.
  lemma ShapeAllows(op: Op, db: Db)
    ensures !op.Backfill? ==> Allows(op, Shape(db))
    ensures Destructive(op) ==> Allows(op, db)
  {
  }

  /** A run that succeeds does to the schema what it does to the database. */
  lemma {:induction false} AllByShape(ops: seq<Op>, db: Db)
    requires Formed(db) && Formed(Shape(db)) && (forall op | op in ops :: !op.Backfill?)
    requires ApplyAll(ops, db).Some?
    ensures ApplyAll(ops, Shape(db)) == Some(Shape(ApplyAll(ops, db).value))
    decreases |ops|
  {
    if ops != [] {
      OneByShape(ops[0], db);
      ApplyFormed(ops[0], db);
      hide Apply, Formed, Shape;
      var next := Apply(ops[0], db).value;
      ShapeFormed(next);
      AllByShape(ops[1..], next);
    }
  }

  lemma OneByShape(op: Op, db: Db)
    requires Formed(db) && Formed(Shape(db)) && !op.Backfill?
    ensures Apply(op, db).Some? ==> Apply(op, Shape(db)) == Some(Shape(Apply(op, db).value))
    ensures Destructive(op) ==> (Apply(op, db).Some? <==> Apply(op, Shape(db)).Some?)
    ensures Apply(op, Shape(db)).Some? <==> Fits(op, db)
  {
    hide Fits, Shape, Effect, Allows, Formed;
    FitsByShape(op, db);
    ShapeAllows(op, db);
    if Fits(op, db) { EffectByShape(op, db); }
  }

  /** Destructive operations succeed or fail by the schema alone, whatever the rows. */
  lemma {:induction false} DropsByShape(ops: seq<Op>, db: Db)
    requires Formed(db) && Formed(Shape(db)) && (forall op | op in ops :: Destructive(op))
    requires ApplyAll(ops, Shape(db)).Some?
    ensures ApplyAll(ops, db).Some?
    ensures ApplyAll(ops, Shape(db)) == Some(Shape(ApplyAll(ops, db).value))
    decreases |ops|
  {
    if ops != [] {
      assert Destructive(ops[0]);
      OneByShape(ops[0], db);
      ApplyFormed(ops[0], db);
      hide Apply, Formed, Shape;
      var next := Apply(ops[0], db).value;
      ShapeFormed(next);
      DropsByShape(ops[1..], next);
    }
  }

  // ----- constructive operations over existing rows

  // Columns known to hold one value in every row.
  ghost predicate Uniform(db: Db, added: map<(Tbl, Col), Value>) {
    forall k | k in added ::
      k.0 in db.tables && forall id | id in db.tables[k.0].rows ::
        k.1 in db.tables[k.0].rows[id] && db.tables[k.0].rows[id][k.1] == added[k]
  }

  /** Additions that no existing row can refuse: nullable or defaulted columns, checks
      on columns just added that the default passes, new tables and indexes. */
  predicate Safe(ops: seq<Op>, added: map<(Tbl, Col), Value>) {
    if ops == [] then true
    else
      match ops[0]
      case AddColumn(t, c, column) =>
        var v := Fill(column.default);
        && (v == Null || column.ref.None?) && (v == Null ==> column.nullable)
        && Safe(ops[1..], added[(t, c) := v])
      case AddCheck(t, c, rule) => (t, c) in added && Passes(rule, added[(t, c)]) && Safe(ops[1..], added)
      case CreateTable(_, _, _, _) | CreateIndex(_, _) => Safe(ops[1..], added)
      case _ => false
  }

  lemma SafeStep(op: Op, db: Db, added: map<(Tbl, Col), Value>)
    requires Formed(db) && Fits(op, db) && Uniform(db, added)
    requires op.AddColumn? ==>
               var v := Fill(op.column.default);
               (v == Null || op.column.ref.None?) && (v == Null ==> op.column.nullable)
    requires op.AddCheck? ==> (op.t, op.c) in added && Passes(op.rule, added[(op.t, op.c)])
    requires op.AddColumn? || op.AddCheck? || op.CreateTable? || op.CreateIndex?
    ensures Allows(op, db)
    ensures Uniform(Effect(op, db), if op.AddColumn? then added[(op.t, op.c) := Fill(op.column.default)] else added)
  {
    hide Passes, Formed, Fill;
    match op
    case AddColumn(t, c, column) =>
    case AddCheck(t, c, rule) =>
    case CreateTable(t, _, _, _) =>
    case CreateIndex(_, _) =>
  }

  /** A safe migration that the schema permits succeeds over arbitrary rows. */
  lemma {:induction false} SafeSucceeds(ops: seq<Op>, db: Db, added: map<(Tbl, Col), Value>)
    requires Formed(db) && Formed(Shape(db)) && Uniform(db, added) && Safe(ops, added)
    requires ApplyAll(ops, Shape(db)).Some?
    ensures ApplyAll(ops, db).Some?
    decreases |ops|
  {
    if ops != [] {
      var op := ops[0];
      OneByShape(op, db);
      SafeStep(op, db, added);
      ApplyFormed(op, db);
      assert Apply(op, db) == Some(Effect(op, db));
      hide Apply, Formed, Shape, Uniform, Effect, Fits, Allows;
      var next := Apply(op, db).value;
      ShapeFormed(next);
      SafeSucceeds(ops[1..], next, if op.AddColumn? then added[(op.t, op.c) := Fill(op.column.default)] else added);
    }
  }
}
