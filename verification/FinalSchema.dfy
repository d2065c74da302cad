/** The schema after all migrations, table by table: what 0001 created, and what the later
    revisions added to it. */
module FinalSchema {
  import opened Prelude
  import opened Schema
  import opened SchemaLaws
  import opened Migrations
  import opened RevisionSchemas
  import opened SchemaFacts

  // ----- what a list of additions does to one empty table

  function NextTable(t: Tbl, table: Table, op: Op): Table {
    match op
    case AddColumn(o, c, column) => if o == t then table.(cols := table.cols[c := column]) else table
    case AddCheck(o, c, rule) => if o == t then table.(checks := table.checks[c := rule]) else table
    case _ => table
  }

  function TableAfter(t: Tbl, table: Table, ops: seq<Op>): Table
    decreases |ops|
  {
    if ops == [] then table else TableAfter(t, NextTable(t, table, ops[0]), ops[1..])
  }

  predicate Touches(op: Op, t: Tbl) {
    (op.AddColumn? || op.AddCheck?) && op.t == t
  }

  lemma StepTable(op: Op, db: Db, t: Tbl)
    requires Formed(db) && Constructive(op) && Apply(op, db).Some? && t in db.tables && db.tables[t].rows == map[]
    ensures var after := Apply(op, db).value;
            && t in after.tables && after.tables[t] == NextTable(t, db.tables[t], op)
            && after.tables[t].rows == map[]
  {
    hide Formed, Allows, Cites, Declares, RefersWithin, HasLog, Seeded, Narrowed, Unindexed;
  }

  lemma {:induction false} AllTable(ops: seq<Op>, db: Db, t: Tbl)
    requires Formed(db) && (forall op | op in ops :: Constructive(op)) && ApplyAll(ops, db).Some?
    requires t in db.tables && db.tables[t].rows == map[]
    ensures var after := ApplyAll(ops, db).value;
            t in after.tables && after.tables[t] == TableAfter(t, db.tables[t], ops)
    decreases |ops|
  {
    hide Formed, Apply, Constructive, NextTable;
    if ops != [] {
      ApplyFormed(ops[0], db);
      StepTable(ops[0], db, t);
      AllTable(ops[1..], Apply(ops[0], db).value, t);
    }
  }

  lemma {:induction false} Untouched(t: Tbl, table: Table, ops: seq<Op>)
    requires forall op | op in ops :: !Touches(op, t)
    ensures TableAfter(t, table, ops) == table
    decreases |ops|
  {
    if ops != [] {
      assert !Touches(ops[0], t);
      Untouched(t, table, ops[1..]);
    }
  }

  lemma {:induction false} AfterAppend(t: Tbl, table: Table, a: seq<Op>, b: seq<Op>)
    ensures TableAfter(t, table, a + b) == TableAfter(t, TableAfter(t, table, a), b)
    decreases |a|
  {
    hide NextTable;
    if a == [] {
      assert a + b == b;
    } else {
      assert (a + b)[1..] == a[1..] + b && (a + b)[0] == a[0];
      AfterAppend(t, NextTable(t, table, a[0]), a[1..], b);
    }
  }

  lemma AfterOne(t: Tbl, table: Table, op: Op)
    ensures TableAfter(t, table, [op]) == NextTable(t, table, op)
  {
    hide NextTable;
    assert [op][1..] == [];
  }

  lemma AfterTwo(t: Tbl, table: Table, x: Op, y: Op)
    ensures TableAfter(t, table, [x, y]) == NextTable(t, NextTable(t, table, x), y)
  {
    hide NextTable;
    assert [x, y] == [x] + [y];
    AfterAppend(t, table, [x], [y]);
    AfterOne(t, table, x);
    AfterOne(t, NextTable(t, table, x), y);
  }

  // ----- what each revision adds

  // The column of migration 0004 and the check that goes with it.
  function Counted(table: Table, c: Col): Table {
    table.(cols := table.cols[c := OPT], checks := table.checks[c := NonNegative])
  }

  function Decided(table: Table): Table {
    table.(cols := table.cols[Status := Def(Text("accepted"))][Significance := Def(Text("major"))]
                   [SupersededBy := OptFk(Decisions)],
           checks := table.checks[Status := OneOf({"proposed", "accepted", "superseded", "reversed"})]
                     [Significance := OneOf({"major", "minor"})])
  }

  function Added(r: Rev, t: Tbl, table: Table): Table {
    match (r, t)
    case (V3, Decisions) => Decided(table)
    case (V3, Prs) => table.(cols := table.cols[TaskId := OptFk(Tasks)])
    case (V4, Runs) =>
      Counted(Counted(Counted(Counted(table, InputTokens), OutputTokens), CacheReadTokens), CacheWriteTokens)
    case (V5, Tasks) => table.(cols := table.cols[GroomRank := OPT])
    case (V7, Prs) => table.(cols := table.cols[TylerNote := OPT])
    case (V7, Decisions) => table.(cols := table.cols[TylerNote := OPT])
    case _ => table
  }

  lemma DecisionsAdded(t: Tbl, table: Table)
    ensures TableAfter(t, table, V3_DECISIONS) == if t == Decisions then Decided(table) else table
  {
    hide Def, OptFk, TableAfter;
    var a := AddColumn(Decisions, Status, Def(Text("accepted")));
    var b := AddColumn(Decisions, Significance, Def(Text("major")));
    var c := AddColumn(Decisions, SupersededBy, OptFk(Decisions));
    var d := AddCheck(Decisions, Status, OneOf({"proposed", "accepted", "superseded", "reversed"}));
    var e := AddCheck(Decisions, Significance, OneOf({"major", "minor"}));
    assert V3_DECISIONS == [a, b] + ([c, d] + [e]);
    hide V3_DECISIONS;
    AfterAppend(t, table, [a, b], [c, d] + [e]);
    AfterTwo(t, table, a, b);
    var two := NextTable(t, NextTable(t, table, a), b);
    AfterAppend(t, two, [c, d], [e]);
    AfterTwo(t, two, c, d);
    AfterOne(t, NextTable(t, NextTable(t, two, c), d), e);
  }

  lemma TokenAdded(t: Tbl, table: Table, c: Col)
    ensures TableAfter(t, table, [AddColumn(Runs, c, OPT), AddCheck(Runs, c, NonNegative)]) ==
            if t == Runs then Counted(table, c) else table
  {
    AfterTwo(t, table, AddColumn(Runs, c, OPT), AddCheck(Runs, c, NonNegative));
  }

  lemma TokensAdded(t: Tbl, table: Table)
    ensures TableAfter(t, table, V4_UP) == Added(V4, t, table)
  {
    hide TableAfter;
    var pair := (c: Col) => [AddColumn(Runs, c, OPT), AddCheck(Runs, c, NonNegative)];
    assert V4_UP == pair(InputTokens) + (pair(OutputTokens) + (pair(CacheReadTokens) + pair(CacheWriteTokens)));
    hide V4_UP, Counted;
    AfterAppend(t, table, pair(InputTokens), pair(OutputTokens) + (pair(CacheReadTokens) + pair(CacheWriteTokens)));
    TokenAdded(t, table, InputTokens);
    var one := if t == Runs then Counted(table, InputTokens) else table;
    AfterAppend(t, one, pair(OutputTokens), pair(CacheReadTokens) + pair(CacheWriteTokens));
    TokenAdded(t, one, OutputTokens);
    var two := if t == Runs then Counted(one, OutputTokens) else table;
    AfterAppend(t, two, pair(CacheReadTokens), pair(CacheWriteTokens));
    TokenAdded(t, two, CacheReadTokens);
    TokenAdded(t, if t == Runs then Counted(two, CacheReadTokens) else table, CacheWriteTokens);
  }

  lemma CreatesTouchNothing(t: Tbl)
    ensures forall op | op in V3_CREATE :: !Touches(op, t)
    ensures forall op | op in V6_UP :: !Touches(op, t)
  {
    hide BaseTable;
  }

  lemma AlterAdded(t: Tbl, table: Table)
    ensures TableAfter(t, table, V3_ALTER + V3_CREATE) == Added(V3, t, table)
  {
    CreatesTouchNothing(t);
    AlterIs();
    hide V3_ALTER, V3_CREATE, V3_DECISIONS, TableAfter, Decided, OptFk;
    var link := AddColumn(Prs, TaskId, OptFk(Tasks));
    AfterAppend(t, table, V3_ALTER, V3_CREATE);
    AfterAppend(t, table, V3_DECISIONS, [link]);
    DecisionsAdded(t, table);
    AfterOne(t, if t == Decisions then Decided(table) else table, link);
    Untouched(t, TableAfter(t, table, V3_ALTER), V3_CREATE);
  }

  lemma LaterAdded(t: Tbl, table: Table)
    ensures TableAfter(t, table, V5_UP) == Added(V5, t, table)
    ensures TableAfter(t, table, V6_UP) == Added(V6, t, table)
    ensures TableAfter(t, table, V7_UP) == Added(V7, t, table)
  {
    CreatesTouchNothing(t);
    Untouched(t, table, V6_UP);
    hide V6_UP, TableAfter;
    AfterOne(t, table, AddColumn(Tasks, GroomRank, OPT));
    AfterTwo(t, table, AddColumn(Prs, TylerNote, OPT), AddColumn(Decisions, TylerNote, OPT));
  }

  lemma RevisionAdds(r: Rev, t: Tbl, table: Table)
    requires r != Base && r != V1
    ensures TableAfter(t, table, Additions(r)) == Added(r, t, table)
  {
    AdditionsAre();
    hide Additions, Added, TableAfter, V3_ALTER, V3_CREATE, V4_UP, V5_UP, V6_UP, V7_UP;
    match r
    case V3 => AlterAdded(t, table);
    case V4 => TokensAdded(t, table);
    case V5 => LaterAdded(t, table);
    case V6 => LaterAdded(t, table);
    case V7 => LaterAdded(t, table);
  }

  lemma AdditionsAre()
    ensures Additions(V3) == V3_ALTER + V3_CREATE && Additions(V4) == V4_UP && Additions(V5) == V5_UP
    ensures Additions(V6) == V6_UP && Additions(V7) == V7_UP
  {
    hide V3_ALTER, V3_CREATE, V4_UP, V5_UP, V6_UP, V7_UP;
  }

  lemma AllConstruct(r: Rev)
    ensures forall op | op in Additions(r) :: Constructive(op)
  {
    hide Additions, Constructive, V3_ALTER, V3_CREATE;
    if r == V3 {
      AlterUndone();
      AdditionsAre();
    } else {
      DowngradeUndoes(r);
    }
  }

  // ----- revision by revision

  ghost predicate IsAt(r: Rev, t: Tbl, table: Table) {
    ShapeAt(r).Some? && t in ShapeAt(r).value.tables && ShapeAt(r).value.tables[t] == table
  }

  lemma NextIs(r: Rev, t: Tbl, table: Table)
    requires r != Base && r != V1 && IsAt(Prev(r), t, table) && table.rows == map[]
    ensures IsAt(r, t, Added(r, t, table))
  {
    SchemasExist(r);
    AllConstruct(r);
    RevisionAdds(r, t, table);
    hide Additions, Constructive, Added, TableAfter, ApplyAll;
    AllTable(Additions(r), ShapeAt(Prev(r)).value, t);
  }

  lemma AddedIsBare(r: Rev, t: Tbl, table: Table)
    requires table.rows == map[]
    ensures Added(r, t, table).rows == map[]
  {
  }

  lemma FirstIs(t: Tbl)
    requires Rank(t) < 12
    ensures IsAt(V1, t, BaseTable(t)) && BaseTable(t).rows == map[]
  {
    BaseTableIsFormed(t);
    hide BaseTable, ShapeAt, IsV1;
    V1Exists();
    FirstTable(ShapeAt(V1).value, t);
  }

  lemma PrevRevs()
    ensures Prev(V7) == V6 && Prev(V6) == V5 && Prev(V5) == V4 && Prev(V4) == V3 && Prev(V3) == V1
  {
  }

  lemma FromV3(t: Tbl, table: Table)
    requires IsAt(V3, t, table) && table.rows == map[]
    ensures IsAt(V7, t, Added(V7, t, Added(V6, t, Added(V5, t, Added(V4, t, table)))))
  {
    hide *;
    PrevRevs();
    NextIs(V4, t, table);
    AddedIsBare(V4, t, table);
    var at4 := Added(V4, t, table);
    NextIs(V5, t, at4);
    AddedIsBare(V5, t, at4);
    var at5 := Added(V5, t, at4);
    NextIs(V6, t, at5);
    AddedIsBare(V6, t, at5);
    NextIs(V7, t, Added(V6, t, at5));
  }

  // Every table of 0001 with all that was added to it.
  function FinalTable(t: Tbl): Table {
    Added(V7, t, Added(V5, t, Added(V4, t, Added(V3, t, BaseTable(t)))))
  }

  lemma FirstTablesEndAs(t: Tbl)
    requires Rank(t) < 12
    ensures IsAt(V7, t, FinalTable(t))
  {
    hide *;
    FirstIs(t);
    PrevRevs();
    NextIs(V3, t, BaseTable(t));
    AddedIsBare(V3, t, BaseTable(t));
    FromV3(t, Added(V3, t, BaseTable(t)));
    FinalIs(t);
  }

  lemma FinalIs(t: Tbl)
    ensures FinalTable(t) == Added(V7, t, Added(V6, t, Added(V5, t, Added(V4, t, Added(V3, t, BaseTable(t))))))
  {
    assert forall table :: Added(V6, t, table) == table;
    hide Added, BaseTable;
  }

  lemma OthersStay(t: Tbl)
    requires t != Tasks && t != Runs && t != Prs && t != Decisions
    ensures FinalTable(t) == BaseTable(t)
  {
    hide BaseTable;
  }

  lemma RanksAre(t: Tbl)
    ensures Rank(t) < 12 || t == Risks || t == TaskEvents || t == Notes
  {
  }

  lemma CreatedAtV3(t: Tbl)
    requires t == Risks || t == TaskEvents
    ensures IsAt(V3, t, BaseTable(t)) && BaseTable(t).rows == map[]
  {
    hide *;
    V1Exists();
    var d := ShapeAt(V1).value;
    V3Indexes(d);
    AlterBuilds(d);
    var d1 := ApplyAll(V3_ALTER, d).value;
    OldTables(d1, V1);
    CreateBuilds(d1);
    ApplyAppend(V3_ALTER, V3_CREATE, d);
    ShapeOfV3();
    Created(d1, t);
    BaseTableIsFormed(t);
    IsAtV3(t, V3Created(d1));
  }

  lemma IsAtV3(t: Tbl, d: Db)
    requires ShapeAt(V3) == Some(d) && t in d.tables && d.tables[t] == BaseTable(t)
    ensures IsAt(V3, t, BaseTable(t))
  {
  }

  lemma Created(d: Db, t: Tbl)
    requires t == Risks || t == TaskEvents
    ensures t in V3Created(d).tables && V3Created(d).tables[t] == BaseTable(t)
  {
    hide BaseTable;
  }

  /** After all migrations the tables of 0001 and 0003 are these. */
  lemma TablesAtTheEnd(t: Tbl)
    requires t != Notes
    ensures IsAt(V7, t, FinalTable(t))
    ensures t != Tasks && t != Runs && t != Prs && t != Decisions ==> FinalTable(t) == BaseTable(t)
  {
    hide *;
    if t != Tasks && t != Runs && t != Prs && t != Decisions { OthersStay(t); }
    RanksAre(t);
    if t == Risks || t == TaskEvents {
      CreatedAtV3(t);
      FromV3(t, BaseTable(t));
      NothingAdded(t, BaseTable(t));
    } else {
      FirstTablesEndAs(t);
    }
  }

  lemma NothingAdded(t: Tbl, table: Table)
    requires t == Risks || t == TaskEvents
    ensures Added(V7, t, Added(V6, t, Added(V5, t, Added(V4, t, table)))) == table
  {
  }

  // ----- the four tables that grew

  /** Runs: four counts, each optional and never negative. */
  lemma RunsAtTheEnd()
    ensures IsAt(V7, Runs, FinalTable(Runs))
    ensures var (was, now) := (BaseTable(Runs), FinalTable(Runs));
            && now.cols == was.cols[InputTokens := Column(true, NoDefault, None)]
                           [OutputTokens := Column(true, NoDefault, None)]
                           [CacheReadTokens := Column(true, NoDefault, None)]
                           [CacheWriteTokens := Column(true, NoDefault, None)]
            && now.checks == was.checks[InputTokens := NonNegative][OutputTokens := NonNegative]
                             [CacheReadTokens := NonNegative][CacheWriteTokens := NonNegative]
            && now.uniques == was.uniques
  {
    hide BaseTable, IsAt;
    TablesAtTheEnd(Runs);
  }

  /** Decisions: a status and a significance with their vocabularies, a link to the
      decision that supersedes, and a note. */
  lemma DecisionsAtTheEnd()
    ensures IsAt(V7, Decisions, FinalTable(Decisions))
    ensures var (was, now) := (BaseTable(Decisions), FinalTable(Decisions));
            && now.cols == was.cols[Status := Column(false, Literal(Text("accepted")), None)]
                           [Significance := Column(false, Literal(Text("major")), None)]
                           [SupersededBy := Column(true, NoDefault, Some(Decisions))]
                           [TylerNote := Column(true, NoDefault, None)]
            && now.checks == was.checks[Status := OneOf({"proposed", "accepted", "superseded", "reversed"})]
                             [Significance := OneOf({"major", "minor"})]
            && now.uniques == was.uniques
  {
    hide BaseTable, IsAt;
    TablesAtTheEnd(Decisions);
  }

  /** Tasks: an optional rank. Pull requests: an optional task and note. */
  lemma TasksAndPrsAtTheEnd()
    ensures IsAt(V7, Tasks, FinalTable(Tasks)) && IsAt(V7, Prs, FinalTable(Prs))
    ensures FinalTable(Tasks) ==
            BaseTable(Tasks).(cols := BaseTable(Tasks).cols[GroomRank := Column(true, NoDefault, None)])
    ensures FinalTable(Prs) ==
            BaseTable(Prs).(cols := BaseTable(Prs).cols[TaskId := Column(true, NoDefault, Some(Tasks))]
                                    [TylerNote := Column(true, NoDefault, None)])
  {
    hide BaseTable, IsAt;
    TablesAtTheEnd(Tasks);
    TablesAtTheEnd(Prs);
  }

  /** Notes: the table that 0006 created. */
  lemma NotesAtTheEnd()
    ensures IsAt(V7, Notes, BaseTable(Notes))
  {
    hide *;
    NotesAtV6();
    PrevRevs();
    BaseTableIsFormed(Notes);
    NotesStay(BaseTable(Notes));
    NextIs(V7, Notes, BaseTable(Notes));
  }

  lemma NotesStay(table: Table)
    ensures Added(V7, Notes, table) == table
  {
  }

  lemma NotesAtV6()
    ensures IsAt(V6, Notes, BaseTable(Notes))
  {
    SchemasExist(V5);
    SchemasExist(V6);
    ShapeAtV6();
    hide BaseTable, Create, ApplyAll, V6_UP, Ready, ShapeAt;
    NotesCreated(ShapeAt(V5).value);
  }

  lemma ShapeAtV6()
    requires ShapeAt(V5).Some?
    ensures ShapeAt(V6) == ApplyAll(V6_UP, ShapeAt(V5).value)
  {
    AdditionsAre();
    hide Additions, ApplyAll, V6_UP, Formed;
  }

  lemma CreatesNotes()
    ensures V6_UP == [Create(Notes)] + [CreateIndex(NotesCreatedAt, IndexDef(Notes, CreatedAt))]
    ensures Create(Notes) ==
            CreateTable(Notes, BaseTable(Notes).cols, BaseTable(Notes).checks, BaseTable(Notes).uniques)
  {
    hide BaseTable;
  }

  lemma NotesCreated(d: Db)
    requires Formed(d) && ApplyAll(V6_UP, d).Some?
    ensures Notes in ApplyAll(V6_UP, d).value.tables && ApplyAll(V6_UP, d).value.tables[Notes] == BaseTable(Notes)
  {
    CreatesNotes();
    BaseTableIsFormed(Notes);
    var index := CreateIndex(NotesCreatedAt, IndexDef(Notes, CreatedAt));
    hide BaseTable, V6_UP, Formed, Create;
    ApplyAppend([Create(Notes)], [index], d);
    ApplyOne(Create(Notes), d);
    var e := ApplyAll([Create(Notes)], d).value;
    ApplyOne(index, e);
    CreateTableExact(d, Notes, BaseTable(Notes).cols, BaseTable(Notes).checks, BaseTable(Notes).uniques);
    IndexesExact(e, NotesCreatedAt, IndexDef(Notes, CreatedAt));
    hide Apply, ApplyAll;
  }

  // ----- the indexes

  function IndexesAfter(indexes: map<Idx, IndexDef>, ops: seq<Op>): map<Idx, IndexDef>
    decreases |ops|
  {
    if ops == [] then indexes
    else IndexesAfter(if ops[0].CreateIndex? then indexes[ops[0].i := ops[0].def] else indexes, ops[1..])
  }

  lemma StepIndexes(op: Op, db: Db)
    requires Formed(db) && Constructive(op) && Apply(op, db).Some?
    ensures Apply(op, db).value.indexes == if op.CreateIndex? then db.indexes[op.i := op.def] else db.indexes
  {
    hide Formed, Allows, Cites, Declares, RefersWithin, HasLog, Seeded, Narrowed, Unindexed, Widened;
  }

  lemma {:induction false} AllIndexes(ops: seq<Op>, db: Db)
    requires Formed(db) && (forall op | op in ops :: Constructive(op)) && ApplyAll(ops, db).Some?
    ensures ApplyAll(ops, db).value.indexes == IndexesAfter(db.indexes, ops)
    decreases |ops|
  {
    hide Formed, Apply, Constructive;
    if ops != [] {
      ApplyFormed(ops[0], db);
      StepIndexes(ops[0], db);
      AllIndexes(ops[1..], Apply(ops[0], db).value);
    }
  }

  lemma {:induction false} NoIndex(indexes: map<Idx, IndexDef>, ops: seq<Op>)
    requires forall op | op in ops :: !op.CreateIndex?
    ensures IndexesAfter(indexes, ops) == indexes
    decreases |ops|
  {
    if ops != [] { NoIndex(indexes, ops[1..]); }
  }

  lemma {:induction false} IndexesAppend(indexes: map<Idx, IndexDef>, a: seq<Op>, b: seq<Op>)
    ensures IndexesAfter(indexes, a + b) == IndexesAfter(IndexesAfter(indexes, a), b)
    decreases |a|
  {
    if a == [] {
      assert a + b == b;
    } else {
      assert (a + b)[1..] == a[1..] + b && (a + b)[0] == a[0];
      IndexesAppend(if a[0].CreateIndex? then indexes[a[0].i := a[0].def] else indexes, a[1..], b);
    }
  }

  lemma IndexOne(indexes: map<Idx, IndexDef>, i: Idx, def: IndexDef)
    ensures IndexesAfter(indexes, [CreateIndex(i, def)]) == indexes[i := def]
  {
    assert [CreateIndex(i, def)][1..] == [];
  }

  lemma IndexTwo(indexes: map<Idx, IndexDef>, i: Idx, x: IndexDef, j: Idx, y: IndexDef)
    ensures IndexesAfter(indexes, [CreateIndex(i, x), CreateIndex(j, y)]) == indexes[i := x][j := y]
  {
    hide IndexesAfter;
    assert [CreateIndex(i, x), CreateIndex(j, y)] == [CreateIndex(i, x)] + [CreateIndex(j, y)];
    IndexesAppend(indexes, [CreateIndex(i, x)], [CreateIndex(j, y)]);
    IndexOne(indexes, i, x);
    IndexOne(indexes[i := x], j, y);
  }

  lemma FirstIndexOps()
    ensures forall op | op in CreateAll(V1_TABLES) :: !op.CreateIndex?
    ensures V1_INDEXES ==
            [CreateIndex(TasksStatus, IndexDef(Tasks, Status)), CreateIndex(RunsTask, IndexDef(Runs, TaskId))]
            + ([CreateIndex(ReviewsPr, IndexDef(Reviews, PrId)), CreateIndex(DebtOpen, IndexDef(Debt, Status))]
               + [CreateIndex(LearningsOpen, IndexDef(Learnings, Status))])
  {
    hide BaseTable, V1_TABLES;
    var ops := CreateAll(V1_TABLES);
    forall op | op in ops ensures !op.CreateIndex? {
      var k :| 0 <= k < |ops| && ops[k] == op;
    }
  }

  const V1_DEFS: map<Idx, IndexDef> := map[
    TasksStatus := IndexDef(Tasks, Status), RunsTask := IndexDef(Runs, TaskId), ReviewsPr := IndexDef(Reviews, PrId),
    DebtOpen := IndexDef(Debt, Status), LearningsOpen := IndexDef(Learnings, Status)]

  lemma FirstIndexesAdded()
    ensures IndexesAfter(map[], Additions(V1)) == V1_DEFS
  {
    FirstAdditions();
    FirstIndexOps();
    hide Additions, V1_INDEXES, V1_TABLES, CreateAll, IndexesAfter;
    NoIndex(map[], CreateAll(V1_TABLES));
    IndexesAppend(map[], CreateAll(V1_TABLES), V1_INDEXES);
    var a, b := IndexDef(Tasks, Status), IndexDef(Runs, TaskId);
    var c, d, e := IndexDef(Reviews, PrId), IndexDef(Debt, Status), IndexDef(Learnings, Status);
    IndexesAppend(map[], [CreateIndex(TasksStatus, a), CreateIndex(RunsTask, b)],
                  [CreateIndex(ReviewsPr, c), CreateIndex(DebtOpen, d)] + [CreateIndex(LearningsOpen, e)]);
    IndexTwo(map[], TasksStatus, a, RunsTask, b);
    var two := map[][TasksStatus := a][RunsTask := b];
    IndexesAppend(two, [CreateIndex(ReviewsPr, c), CreateIndex(DebtOpen, d)], [CreateIndex(LearningsOpen, e)]);
    IndexTwo(two, ReviewsPr, c, DebtOpen, d);
    IndexOne(two[ReviewsPr := c][DebtOpen := d], LearningsOpen, e);
  }

  lemma NoOtherIndex()
    ensures forall op | op in V3_ALTER + [Create(Risks), Create(TaskEvents)] :: !op.CreateIndex?
    ensures forall op | op in V4_UP + V5_UP + V7_UP :: !op.CreateIndex?
    ensures V3_ALTER + V3_CREATE ==
            (V3_ALTER + [Create(Risks), Create(TaskEvents)])
            + [CreateIndex(RisksOpen, IndexDef(Risks, Status)),
               CreateIndex(TaskEventsTask, IndexDef(TaskEvents, TaskId))]
  {
    hide BaseTable;
  }

  lemma LaterIndexesAdded(indexes: map<Idx, IndexDef>)
    ensures IndexesAfter(indexes, Additions(V3)) ==
            indexes[RisksOpen := IndexDef(Risks, Status)][TaskEventsTask := IndexDef(TaskEvents, TaskId)]
    ensures IndexesAfter(indexes, Additions(V4)) == indexes && IndexesAfter(indexes, Additions(V5)) == indexes
    ensures IndexesAfter(indexes, Additions(V6)) == indexes[NotesCreatedAt := IndexDef(Notes, CreatedAt)]
    ensures IndexesAfter(indexes, Additions(V7)) == indexes
  {
    AdditionsAre();
    NoOtherIndex();
    CreatesNotes();
    hide Additions, V3_ALTER, V3_CREATE, V4_UP, V5_UP, V6_UP, V7_UP, IndexesAfter, BaseTable;
    NoIndex(indexes, V4_UP);
    NoIndex(indexes, V5_UP);
    NoIndex(indexes, V7_UP);
    var plain := V3_ALTER + [Create(Risks), Create(TaskEvents)];
    NoIndex(indexes, plain);
    IndexesAppend(indexes, plain, [CreateIndex(RisksOpen, IndexDef(Risks, Status)),
                                   CreateIndex(TaskEventsTask, IndexDef(TaskEvents, TaskId))]);
    IndexTwo(indexes, RisksOpen, IndexDef(Risks, Status), TaskEventsTask, IndexDef(TaskEvents, TaskId));
    NoIndex(indexes, [Create(Notes)]);
    IndexesAppend(indexes, [Create(Notes)], [CreateIndex(NotesCreatedAt, IndexDef(Notes, CreatedAt))]);
    IndexOne(indexes, NotesCreatedAt, IndexDef(Notes, CreatedAt));
  }

  lemma NextIndexes(r: Rev)
    requires r != Base
    ensures ShapeAt(r).Some? && ShapeAt(Prev(r)).Some?
    ensures ShapeAt(r).value.indexes == IndexesAfter(ShapeAt(Prev(r)).value.indexes, Additions(r))
  {
    SchemasExist(r);
    SchemasExist(Prev(r));
    FirstConstructs();
    if r != V1 { AllConstruct(r); }
    hide Additions, Constructive, IndexesAfter, ApplyAll;
    AllIndexes(Additions(r), ShapeAt(Prev(r)).value);
  }

  lemma FirstConstructs()
    ensures forall op | op in Additions(V1) :: Constructive(op)
  {
    hide Additions, Constructive;
    DowngradeUndoes(V1);
  }

  /** The indexes after all migrations. */
  lemma IndexesAtTheEnd()
    ensures ShapeAt(V7).Some?
    ensures ShapeAt(V7).value.indexes ==
            V1_DEFS[RisksOpen := IndexDef(Risks, Status)][TaskEventsTask := IndexDef(TaskEvents, TaskId)]
            [NotesCreatedAt := IndexDef(Notes, CreatedAt)]
  {
    PrevRevs();
    NothingIndexed();
    hide *;
    FirstIndexesAdded();
    NextIndexes(V1);
    NextIndexes(V3);
    LaterIndexesAdded(V1_DEFS);
    var at3 := V1_DEFS[RisksOpen := IndexDef(Risks, Status)][TaskEventsTask := IndexDef(TaskEvents, TaskId)];
    NextIndexes(V4);
    NextIndexes(V5);
    LaterIndexesAdded(at3);
    NextIndexes(V6);
    NextIndexes(V7);
    LaterIndexesAdded(at3[NotesCreatedAt := IndexDef(Notes, CreatedAt)]);
  }

  lemma NothingIndexed()
    ensures Prev(V1) == Base && ShapeAt(Base) == Some(NOTHING) && NOTHING.indexes == map[]
  {
  }
}
