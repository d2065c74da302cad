/** The schema of each revision, and the proof that each upgrade's additions fit the
    schema of the revision before. */
module RevisionSchemas {
  import opened Prelude
  import opened Schema
  import opened SchemaLaws
  import opened SchemaShape
  import opened Migrations

  const NOTHING := Db(map[], map[])

  function Age(r: Rev): nat {
    match r case Base => 0 case V1 => 1 case V3 => 2 case V4 => 3 case V5 => 4 case V6 => 5 case V7 => 6
  }

  /** The schema of a revision is what its upgrades build from nothing. */
  ghost function ShapeAt(r: Rev): (s: Option<Db>)
    ensures s.Some? ==> Formed(s.value)
    decreases Age(r)
  {
    if r == Base then Some(NOTHING)
    else
      match ShapeAt(Prev(r))
      case None => None
      case Some(d) => ApplyAll(Additions(r), d)
  }

  /** A database of a revision: its schema, and rows that keep every constraint. */
  ghost predicate Valid(r: Rev, db: Db) {
    Formed(db) && Holds(db) && ShapeAt(r) == Some(Shape(db))
  }

  // ----- building the schemas

  // One more operation at the end of a run.
  lemma Then(ops: seq<Op>, db: Db, mid: Db, op: Op)
    requires Formed(db) && ApplyAll(ops, db) == Some(mid) && Fits(op, mid) && Allows(op, mid)
    ensures ApplyAll(ops + [op], db) == Some(Effect(op, mid)) && Formed(Effect(op, mid))
  {
    ApplyAppend(ops, [op], db);
    ApplyOne(op, mid);
    ApplyFormed(op, mid);
    hide Fits, Allows, Effect, Formed;
  }

  function Rank(t: Tbl): nat {
    match t
    case Projects => 0 case Tasks => 1 case Runs => 2 case Prs => 3 case Reviews => 4 case Questions => 5
    case Decisions => 6 case Artifacts => 7 case Learnings => 8 case Debt => 9 case Metrics => 10 case Retros => 11
    case Risks => 12 case TaskEvents => 13 case Notes => 14
  }

  lemma TablesAreRanked()
    ensures |V1_TABLES| == 12 && forall k | 0 <= k < 12 :: Rank(V1_TABLES[k]) == k
  {
  }

  // Every table of 0001 is well formed and points at itself or at older tables only.
  lemma BaseTableIsFormed(t: Tbl)
    ensures var b := BaseTable(t);
            && Id in b.cols && b.checks.Keys <= b.cols.Keys && b.rows == map[]
            && (forall key | key in b.uniques :: key <= b.cols.Keys)
            && forall c | c in b.cols && b.cols[c].ref.Some? :: Rank(b.cols[c].ref.value) < Rank(t)
  {
    BaseTableCitesOlder(t);
    hide Rank;
  }

  lemma BaseTableCitesOlder(t: Tbl)
    ensures var cols := BaseTable(t).cols;
            forall c | c in cols && cols[c].ref.Some? :: Rank(cols[c].ref.value) < Rank(t)
  {
  }

  function FirstTables(k: nat): map<Tbl, Table> {
    map t: Tbl | Rank(t) < k :: BaseTable(t)
  }

  lemma {:induction false} CreateAllAppend(a: seq<Tbl>, t: Tbl)
    ensures CreateAll(a + [t]) == CreateAll(a) + [Create(t)]
  {
    hide Create, BaseTable;
    if a == [] {
      assert a + [t] == [t] && [t][1..] == [];
    } else {
      assert (a + [t])[1..] == a[1..] + [t];
      CreateAllAppend(a[1..], t);
    }
  }

  lemma {:induction false} CreateFirst(ts: seq<Tbl>)
    requires forall i | 0 <= i < |ts| :: Rank(ts[i]) == i
    ensures Formed(NOTHING) && ApplyAll(CreateAll(ts), NOTHING) == Some(Db(FirstTables(|ts|), map[]))
  {
    hide *;
    if ts == [] {
      NothingFirst();
    } else {
      var k := |ts| - 1;
      var before, t := ts[..k], ts[k];
      CreateFirst(before);
      assert ts == before + [t];
      CreateAllAppend(before, t);
      CreateNext(k, t);
      Then(CreateAll(before), NOTHING, Db(FirstTables(k), map[]), Create(t));
    }
  }

  lemma NothingFirst()
    ensures Formed(NOTHING) && ApplyAll(CreateAll([]), NOTHING) == Some(Db(FirstTables(0), map[]))
  {
    hide BaseTable;
    assert FirstTables(0) == map[];
  }

  lemma CreateNext(k: nat, t: Tbl)
    requires Rank(t) == k
    ensures Fits(Create(t), Db(FirstTables(k), map[])) && Allows(Create(t), Db(FirstTables(k), map[]))
    ensures Effect(Create(t), Db(FirstTables(k), map[])) == Db(FirstTables(k + 1), map[])
  {
    BaseTableIsFormed(t);
    hide BaseTable;
    forall x: Tbl | Rank(x) == k ensures x == t {}
    assert FirstTables(k)[t := BaseTable(t)] == FirstTables(k + 1);
  }

  const V1_INDEX_NAMES := {TasksStatus, RunsTask, ReviewsPr, DebtOpen, LearningsOpen}

  ghost predicate IsV1(d: Db) {
    d.tables == FirstTables(12) && d.indexes.Keys == V1_INDEX_NAMES
  }

  lemma IndexFits(d: Db, i: Idx, t: Tbl, c: Col)
    requires i !in d.indexes && t in d.tables && c in d.tables[t].cols
    ensures var op := CreateIndex(i, IndexDef(t, c));
            Fits(op, d) && Allows(op, d) && Effect(op, d) == Db(d.tables, d.indexes[i := IndexDef(t, c)])
  {
  }

  lemma AddIndex(ops: seq<Op>, db: Db, mid: Db, i: Idx, t: Tbl, c: Col)
    requires Formed(db) && ApplyAll(ops, db) == Some(mid)
    requires i !in mid.indexes && t in mid.tables && c in mid.tables[t].cols
    ensures ApplyAll(ops + [CreateIndex(i, IndexDef(t, c))], db) ==
            Some(Db(mid.tables, mid.indexes[i := IndexDef(t, c)]))
  {
    hide *;
    IndexFits(mid, i, t, c);
    Then(ops, db, mid, CreateIndex(i, IndexDef(t, c)));
  }

  lemma IndexedColumns()
    ensures var ts := FirstTables(12);
            && Tasks in ts && Status in ts[Tasks].cols && Runs in ts && TaskId in ts[Runs].cols
            && Reviews in ts && PrId in ts[Reviews].cols && Debt in ts && Status in ts[Debt].cols
            && Learnings in ts && Status in ts[Learnings].cols
  {
    BaseIndexed();
    hide BaseTable;
  }

  lemma BaseIndexed()
    ensures Status in BaseTable(Tasks).cols && TaskId in BaseTable(Runs).cols && PrId in BaseTable(Reviews).cols
    ensures Status in BaseTable(Debt).cols && Status in BaseTable(Learnings).cols
  {
  }

  lemma IndexesOfV1(d: Db)
    requires Formed(d) && d == Db(FirstTables(12), map[])
    ensures ApplyAll(V1_INDEXES, d).Some? && IsV1(ApplyAll(V1_INDEXES, d).value)
  {
    hide BaseTable, ApplyAll, Formed, FirstTables;
    IndexedColumns();
    var i0 := [] + [CreateIndex(TasksStatus, IndexDef(Tasks, Status))];
    var i1 := i0 + [CreateIndex(RunsTask, IndexDef(Runs, TaskId))];
    var i2 := i1 + [CreateIndex(ReviewsPr, IndexDef(Reviews, PrId))];
    var i3 := i2 + [CreateIndex(DebtOpen, IndexDef(Debt, Status))];
    var i4 := i3 + [CreateIndex(LearningsOpen, IndexDef(Learnings, Status))];
    assert i4 == V1_INDEXES;
    NoOps(d);
    AddIndex([], d, d, TasksStatus, Tasks, Status);
    var d0 := Db(d.tables, d.indexes[TasksStatus := IndexDef(Tasks, Status)]);
    AddIndex(i0, d, d0, RunsTask, Runs, TaskId);
    var d1 := Db(d.tables, d0.indexes[RunsTask := IndexDef(Runs, TaskId)]);
    AddIndex(i1, d, d1, ReviewsPr, Reviews, PrId);
    var d2 := Db(d.tables, d1.indexes[ReviewsPr := IndexDef(Reviews, PrId)]);
    AddIndex(i2, d, d2, DebtOpen, Debt, Status);
    var d3 := Db(d.tables, d2.indexes[DebtOpen := IndexDef(Debt, Status)]);
    AddIndex(i3, d, d3, LearningsOpen, Learnings, Status);
    var d4 := Db(d.tables, d3.indexes[LearningsOpen := IndexDef(Learnings, Status)]);
    assert d4.indexes.Keys == V1_INDEX_NAMES;
  }

  lemma NoOps(d: Db)
    requires Formed(d)
    ensures ApplyAll([], d) == Some(d)
  {
  }

  lemma V1Builds()
    ensures Formed(NOTHING) && ApplyAll(Additions(V1), NOTHING).Some?
    ensures IsV1(ApplyAll(Additions(V1), NOTHING).value)
  {
    hide *;
    TablesAreRanked();
    CreateFirst(V1_TABLES);
    FirstAdditions();
    IndexesOfV1(Db(FirstTables(12), map[]));
    ApplyAppend(CreateAll(V1_TABLES), V1_INDEXES, NOTHING);
  }

  lemma FirstAdditions()
    ensures Additions(V1) == CreateAll(V1_TABLES) + V1_INDEXES
  {
    hide CreateAll, V1_TABLES, V1_INDEXES, BaseTable;
  }

  lemma V1Exists()
    ensures ShapeAt(V1).Some? && IsV1(ShapeAt(V1).value)
  {
    hide BaseTable, Additions, FirstTables, IsV1, ApplyAll, Formed;
    V1Builds();
    assert ShapeAt(Base) == Some(NOTHING);
  }

  // ----- one addition at a time, on a schema without rows

  // An empty table without these columns.
  ghost predicate Plain(d: Db, t: Tbl, free: set<Col>) {
    t in d.tables && d.tables[t].rows == map[] && d.tables[t].cols.Keys !! free
  }

  // Only table `t` differs.
  ghost predicate Changed(a: Db, b: Db, t: Tbl) {
    && t in a.tables && a.tables.Keys == b.tables.Keys && a.indexes == b.indexes
    && forall x | x in a.tables && x != t :: a.tables[x] == b.tables[x]
  }

  lemma AddOne(ops: seq<Op>, db: Db, mid: Db, t: Tbl, c: Col, column: Column, free: set<Col>) returns (after: Db)
    requires t in mid.tables
    requires Formed(db) && ApplyAll(ops, db) == Some(mid)
    requires Plain(mid, t, free) && c in free && !column.default.NowDefault?
    requires column.ref.Some? ==> column.ref.value in mid.tables
    ensures ApplyAll(ops + [AddColumn(t, c, column)], db) == Some(after)
    ensures Changed(mid, after, t) && Plain(after, t, free - {c})
    ensures c in after.tables[t].cols && mid.tables[t].cols.Keys <= after.tables[t].cols.Keys
    ensures after.tables[t].checks == mid.tables[t].checks && after.tables.Keys == mid.tables.Keys
  {
    hide Formed, ApplyAll;
    Then(ops, db, mid, AddColumn(t, c, column));
    after := PutTable(mid, t, Widened(mid.tables[t], c, column));
  }

  lemma CheckOne(ops: seq<Op>, db: Db, mid: Db, t: Tbl, c: Col, rule: Rule, free: set<Col>) returns (after: Db)
    requires Formed(db) && ApplyAll(ops, db) == Some(mid)
    requires Plain(mid, t, free) && c in mid.tables[t].cols && c !in mid.tables[t].checks
    ensures ApplyAll(ops + [AddCheck(t, c, rule)], db) == Some(after)
    ensures Changed(mid, after, t) && Plain(after, t, free)
    ensures after.tables[t].cols == mid.tables[t].cols && after.tables[t].checks.Keys == mid.tables[t].checks.Keys + {c}
  {
    hide Formed, ApplyAll;
    Then(ops, db, mid, AddCheck(t, c, rule));
    after := PutTable(mid, t, mid.tables[t].(checks := mid.tables[t].checks[c := rule]));
  }

  lemma CreateOne(ops: seq<Op>, db: Db, mid: Db, t: Tbl)
    requires Formed(db) && ApplyAll(ops, db) == Some(mid)
    requires t !in mid.tables && forall x: Tbl | Rank(x) < 12 :: x in mid.tables
    requires Rank(t) >= 12
    ensures ApplyAll(ops + [Create(t)], db) == Some(PutTable(mid, t, BaseTable(t)))
  {
    BaseTableIsFormed(t);
    LaterTablesCiteFirst(t);
    hide Formed, ApplyAll, BaseTable;
    Then(ops, db, mid, Create(t));
  }

  lemma LaterTablesCiteFirst(t: Tbl)
    requires Rank(t) >= 12
    ensures var cols := BaseTable(t).cols; forall c | c in cols && cols[c].ref.Some? :: Rank(cols[c].ref.value) < 12
  {
  }

  // What later upgrades need of the schema they start from.
  ghost predicate Ready(d: Db, r: Rev) {
    && (forall x: Tbl | Rank(x) < 12 :: x in d.tables)
    && (Age(r) <= 2 ==> Plain(d, Runs, {InputTokens, OutputTokens, CacheReadTokens, CacheWriteTokens})
                        && d.tables[Runs].checks.Keys !! {InputTokens, OutputTokens, CacheReadTokens, CacheWriteTokens})
    && (Age(r) <= 3 ==> Plain(d, Tasks, {GroomRank}))
    && (Age(r) <= 4 ==> Notes !in d.tables && NotesCreatedAt !in d.indexes)
    && (Age(r) <= 5 ==> Plain(d, Prs, {TylerNote}) && Plain(d, Decisions, {TylerNote}))
  }

  lemma FirstTable(d: Db, t: Tbl)
    requires IsV1(d)
    ensures t in d.tables <==> Rank(t) < 12
    ensures Rank(t) < 12 ==> d.tables[t] == BaseTable(t)
  {
    hide BaseTable;
  }

  lemma BaseColumns()
    ensures BaseTable(Decisions).cols.Keys !! {Status, Significance, SupersededBy, TylerNote}
    ensures BaseTable(Decisions).checks == map[]
    ensures BaseTable(Prs).cols.Keys !! {TaskId, TylerNote}
    ensures BaseTable(Tasks).cols.Keys !! {GroomRank}
  {
  }

  lemma BaseRunColumns()
    ensures BaseTable(Runs).cols.Keys !! {InputTokens, OutputTokens, CacheReadTokens, CacheWriteTokens}
    ensures BaseTable(Runs).checks.Keys !! {InputTokens, OutputTokens, CacheReadTokens, CacheWriteTokens}
  {
  }

  lemma FirstTablesReady(d: Db)
    requires IsV1(d)
    ensures Ready(d, V1)
    ensures Plain(d, Decisions, {Status, Significance, SupersededBy, TylerNote}) && d.tables[Decisions].checks == map[]
    ensures Plain(d, Prs, {TaskId, TylerNote}) && Risks !in d.tables && TaskEvents !in d.tables
    ensures RisksOpen !in d.indexes && TaskEventsTask !in d.indexes
  {
    hide BaseTable, FirstTables, IsV1, Plain;
    BaseColumns();
    BaseRunColumns();
    FirstIndexes(d);
    PlainBase(d, Runs, {InputTokens, OutputTokens, CacheReadTokens, CacheWriteTokens});
    PlainBase(d, Tasks, {GroomRank});
    PlainBase(d, Prs, {TylerNote});
    PlainBase(d, Prs, {TaskId, TylerNote});
    PlainBase(d, Decisions, {TylerNote});
    PlainBase(d, Decisions, {Status, Significance, SupersededBy, TylerNote});
    FirstTable(d, Risks);
    FirstTable(d, TaskEvents);
    FirstTable(d, Notes);
    forall t: Tbl | Rank(t) < 12 ensures t in d.tables { FirstTable(d, t); }
  }

  lemma PlainBase(d: Db, t: Tbl, free: set<Col>)
    requires IsV1(d) && Rank(t) < 12 && BaseTable(t).cols.Keys !! free
    ensures Plain(d, t, free) && d.tables[t] == BaseTable(t)
  {
    hide BaseTable;
    FirstTable(d, t);
    BaseTableIsFormed(t);
  }

  lemma FirstIndexes(d: Db)
    requires IsV1(d)
    ensures d.indexes.Keys == {TasksStatus, RunsTask, ReviewsPr, DebtOpen, LearningsOpen}
  {
    hide BaseTable;
  }

  const V3_DECISIONS := [
    AddColumn(Decisions, Status, Def(Text("accepted"))),
    AddColumn(Decisions, Significance, Def(Text("major"))),
    AddColumn(Decisions, SupersededBy, OptFk(Decisions)),
    AddCheck(Decisions, Status, OneOf({"proposed", "accepted", "superseded", "reversed"})),
    AddCheck(Decisions, Significance, OneOf({"major", "minor"}))]

  lemma ChangedTwice(a: Db, b: Db, c: Db, t: Tbl)
    requires Changed(a, b, t) && Changed(b, c, t)
    ensures Changed(a, c, t)
  {
  }

  lemma DecisionsAltered(d: Db) returns (after: Db)
    requires Formed(d) && Plain(d, Decisions, {Status, Significance, SupersededBy, TylerNote})
    requires d.tables[Decisions].checks == map[]
    ensures ApplyAll(V3_DECISIONS, d) == Some(after)
    ensures Changed(d, after, Decisions) && Plain(after, Decisions, {TylerNote})
  {
    hide Formed, ApplyAll, Def, OptFk;
    NoOps(d);
    DefaultsAreConstant();
    var rule0, rule1 := OneOf({"proposed", "accepted", "superseded", "reversed"}), OneOf({"major", "minor"});
    var l0 := [] + [AddColumn(Decisions, Status, Def(Text("accepted")))];
    var l1 := l0 + [AddColumn(Decisions, Significance, Def(Text("major")))];
    var l2 := l1 + [AddColumn(Decisions, SupersededBy, OptFk(Decisions))];
    var l3 := l2 + [AddCheck(Decisions, Status, rule0)];
    assert l3 + [AddCheck(Decisions, Significance, rule1)] == V3_DECISIONS;
    hide *;
    var d0 := AddOne([], d, d, Decisions, Status, Def(Text("accepted")),
                     {Status, Significance, SupersededBy, TylerNote});
    assert {Status, Significance, SupersededBy, TylerNote} - {Status} == {Significance, SupersededBy, TylerNote};
    var d1 := AddOne(l0, d, d0, Decisions, Significance, Def(Text("major")), {Significance, SupersededBy, TylerNote});
    assert {Significance, SupersededBy, TylerNote} - {Significance} == {SupersededBy, TylerNote};
    ChangedTwice(d, d0, d1, Decisions);
    var d2 := AddOne(l1, d, d1, Decisions, SupersededBy, OptFk(Decisions), {SupersededBy, TylerNote});
    assert {SupersededBy, TylerNote} - {SupersededBy} == {TylerNote};
    ChangedTwice(d, d1, d2, Decisions);
    var d3 := CheckOne(l2, d, d2, Decisions, Status, rule0, {TylerNote});
    ChangedTwice(d, d2, d3, Decisions);
    after := CheckOne(l3, d, d3, Decisions, Significance, rule1, {TylerNote});
    ChangedTwice(d, d3, after, Decisions);
  }

  lemma AlterIs()
    ensures V3_DECISIONS + [AddColumn(Prs, TaskId, OptFk(Tasks))] == V3_ALTER
  {
    hide Def, OptFk;
  }

  lemma AlterBuilds(d: Db)
    requires Formed(d) && IsV1(d)
    ensures ApplyAll(V3_ALTER, d).Some?
    ensures var after := ApplyAll(V3_ALTER, d).value;
            && Ready(after, V1) && after.indexes == d.indexes
            && Risks !in after.tables && TaskEvents !in after.tables
            && after.tables[Tasks] == BaseTable(Tasks)
  {
    hide Formed, ApplyAll, IsV1, BaseTable, Def, OptFk;
    FirstTablesReady(d);
    FirstTable(d, Tasks);
    DefaultsAreConstant();
    var d4 := DecisionsAltered(d);
    AlterIs();
    hide V3_ALTER, V3_DECISIONS, Fits, Allows, Effect;
    var d5 := AddOne(V3_DECISIONS, d, d4, Prs, TaskId, OptFk(Tasks), {TaskId, TylerNote});
    assert {TaskId, TylerNote} - {TaskId} == {TylerNote};
    hide Plain, Changed, Ready;
    ReadyAfterAlter(d, d4, d5);
  }

  lemma ReadyAfterAlter(a: Db, b: Db, c: Db)
    requires Ready(a, V1) && Changed(a, b, Decisions) && Plain(b, Decisions, {TylerNote})
    requires Changed(b, c, Prs) && Plain(c, Prs, {TylerNote})
    requires Risks !in a.tables && TaskEvents !in a.tables && Tasks in a.tables
    ensures Ready(c, V1) && c.indexes == a.indexes && Risks !in c.tables && TaskEvents !in c.tables
    ensures Tasks in c.tables && c.tables[Tasks] == a.tables[Tasks]
  {
  }

  lemma DefaultsAreConstant()
    ensures forall v :: Def(v) == Column(false, Literal(v), None)
    ensures forall t :: OptFk(t) == Column(true, NoDefault, Some(t))
  {
  }

  lemma LaterColumns()
    ensures Status in BaseTable(Risks).cols && TaskId in BaseTable(TaskEvents).cols
    ensures CreatedAt in BaseTable(Notes).cols
  {
  }

  // 0003's new tables and indexes, over any schema that has the old ones.
  function V3Created(d: Db): Db {
    Db(d.tables[Risks := BaseTable(Risks)][TaskEvents := BaseTable(TaskEvents)],
       d.indexes[RisksOpen := IndexDef(Risks, Status)][TaskEventsTask := IndexDef(TaskEvents, TaskId)])
  }

  lemma CreateBuilds(d: Db)
    requires Formed(d) && (forall x: Tbl | Rank(x) < 12 :: x in d.tables)
    requires Risks !in d.tables && TaskEvents !in d.tables
    requires RisksOpen !in d.indexes && TaskEventsTask !in d.indexes
    ensures ApplyAll(V3_CREATE, d) == Some(V3Created(d))
  {
    LaterColumns();
    hide BaseTable, Create, ApplyAll, Formed;
    NoOps(d);
    var l0 := [] + [Create(Risks)];
    var l1 := l0 + [Create(TaskEvents)];
    var l2 := l1 + [CreateIndex(RisksOpen, IndexDef(Risks, Status))];
    assert l2 + [CreateIndex(TaskEventsTask, IndexDef(TaskEvents, TaskId))] == V3_CREATE;
    CreateOne([], d, d, Risks);
    var d0 := PutTable(d, Risks, BaseTable(Risks));
    CreateOne(l0, d, d0, TaskEvents);
    var d1 := PutTable(d0, TaskEvents, BaseTable(TaskEvents));
    AddIndex(l1, d, d1, RisksOpen, Risks, Status);
    var d2 := Db(d1.tables, d1.indexes[RisksOpen := IndexDef(Risks, Status)]);
    AddIndex(l2, d, d2, TaskEventsTask, TaskEvents, TaskId);
  }

  lemma V3Exists()
    ensures ShapeAt(V3).Some? && Ready(ShapeAt(V3).value, V3)
  {
    hide *;
    V1Exists();
    var d := ShapeAt(V1).value;
    V3Indexes(d);
    AlterBuilds(d);
    var d1 := ApplyAll(V3_ALTER, d).value;
    OldTables(d1, V1);
    CreateBuilds(d1);
    ApplyAppend(V3_ALTER, V3_CREATE, d);
    ShapeOfV3();
    ReadyAfterCreate(d1);
  }

  lemma V3Indexes(d: Db)
    requires IsV1(d)
    ensures RisksOpen !in d.indexes && TaskEventsTask !in d.indexes
  {
    FirstIndexes(d);
  }

  lemma OldTables(d: Db, r: Rev)
    requires Ready(d, r)
    ensures forall x: Tbl | Rank(x) < 12 :: x in d.tables
  {
  }

  lemma ShapeOfV3()
    requires ShapeAt(V1).Some?
    ensures ShapeAt(V3) == ApplyAll(V3_ALTER + V3_CREATE, ShapeAt(V1).value)
  {
    hide Formed, ApplyAll, V3_ALTER, V3_CREATE, BaseTable;
    assert Additions(V3) == V3_ALTER + V3_CREATE;
  }

  lemma ReadyAfterCreate(d: Db)
    requires Ready(d, V1)
    ensures Ready(V3Created(d), V3)
  {
    hide BaseTable;
  }

  lemma TokenPair(ops: seq<Op>, d: Db, mid: Db, c: Col, free: set<Col>, left: set<Col>) returns (after: Db)
    requires Formed(d) && ApplyAll(ops, d) == Some(mid)
    requires Plain(mid, Runs, free) && c in free && left == free - {c} && mid.tables[Runs].checks.Keys !! free
    ensures ApplyAll(ops + [AddColumn(Runs, c, OPT)] + [AddCheck(Runs, c, NonNegative)], d) == Some(after)
    ensures Changed(mid, after, Runs) && Plain(after, Runs, left) && after.tables[Runs].checks.Keys !! left
  {
    hide Formed, ApplyAll, Changed;
    var one := AddOne(ops, d, mid, Runs, c, OPT, free);
    after := CheckOne(ops + [AddColumn(Runs, c, OPT)], d, one, Runs, c, NonNegative, left);
    ChangedTwice(mid, one, after, Runs);
  }

  lemma V4Builds(d: Db)
    requires Formed(d) && Ready(d, V3)
    ensures ApplyAll(V4_UP, d).Some? && Ready(ApplyAll(V4_UP, d).value, V4)
  {
    hide *;
    RunsReady(d);
    NoOps(d);
    var l0 := [];
    var l1 := l0 + [AddColumn(Runs, InputTokens, OPT)] + [AddCheck(Runs, InputTokens, NonNegative)];
    var l2 := l1 + [AddColumn(Runs, OutputTokens, OPT)] + [AddCheck(Runs, OutputTokens, NonNegative)];
    var l3 := l2 + [AddColumn(Runs, CacheReadTokens, OPT)] + [AddCheck(Runs, CacheReadTokens, NonNegative)];
    V4List();
    var d1 := TokenPair(l0, d, d, InputTokens, {InputTokens, OutputTokens, CacheReadTokens, CacheWriteTokens},
                        {OutputTokens, CacheReadTokens, CacheWriteTokens});
    var d2 := TokenPair(l1, d, d1, OutputTokens, {OutputTokens, CacheReadTokens, CacheWriteTokens},
                        {CacheReadTokens, CacheWriteTokens});
    ChangedTwice(d, d1, d2, Runs);
    var d3 := TokenPair(l2, d, d2, CacheReadTokens, {CacheReadTokens, CacheWriteTokens}, {CacheWriteTokens});
    ChangedTwice(d, d2, d3, Runs);
    var d4 := TokenPair(l3, d, d3, CacheWriteTokens, {CacheWriteTokens}, {});
    ChangedTwice(d, d3, d4, Runs);
    ReadyAfterTokens(d, d4);
  }

  lemma V4List()
    ensures V4_UP ==
            [] + [AddColumn(Runs, InputTokens, OPT)] + [AddCheck(Runs, InputTokens, NonNegative)]
            + [AddColumn(Runs, OutputTokens, OPT)] + [AddCheck(Runs, OutputTokens, NonNegative)]
            + [AddColumn(Runs, CacheReadTokens, OPT)] + [AddCheck(Runs, CacheReadTokens, NonNegative)]
            + [AddColumn(Runs, CacheWriteTokens, OPT)] + [AddCheck(Runs, CacheWriteTokens, NonNegative)]
  {
  }

  lemma RunsReady(d: Db)
    requires Ready(d, V3)
    ensures Plain(d, Runs, {InputTokens, OutputTokens, CacheReadTokens, CacheWriteTokens})
    ensures d.tables[Runs].checks.Keys !! {InputTokens, OutputTokens, CacheReadTokens, CacheWriteTokens}
  {
  }

  lemma ReadyAfterTokens(a: Db, b: Db)
    requires Ready(a, V3) && Changed(a, b, Runs)
    ensures Ready(b, V4)
  {
  }

  lemma V5Builds(d: Db)
    requires Formed(d) && Ready(d, V4)
    ensures ApplyAll(V5_UP, d).Some? && Ready(ApplyAll(V5_UP, d).value, V5)
  {
    hide Formed, ApplyAll;
    NoOps(d);
    assert [] + [AddColumn(Tasks, GroomRank, OPT)] == V5_UP;
    assert Plain(d, Tasks, {GroomRank}) && !OPT.default.NowDefault? && OPT.ref == None;
    hide *;
    var after := AddOne([], d, d, Tasks, GroomRank, OPT, {GroomRank});
    ReadyAfterRank(d, after);
  }

  lemma ReadyAfterRank(a: Db, b: Db)
    requires Ready(a, V4) && Changed(a, b, Tasks)
    ensures Ready(b, V5)
  {
    hide Formed;
  }

  lemma V6Builds(d: Db)
    requires Formed(d) && Ready(d, V5)
    ensures ApplyAll(V6_UP, d).Some? && Ready(ApplyAll(V6_UP, d).value, V6)
  {
    hide Formed, ApplyAll, BaseTable, Create, Plain;
    LaterColumns();
    NoOps(d);
    var l0 := [] + [Create(Notes)];
    var index := CreateIndex(NotesCreatedAt, IndexDef(Notes, CreatedAt));
    assert l0 + [index] == V6_UP;
    CreateOne([], d, d, Notes);
    var mid := PutTable(d, Notes, BaseTable(Notes));
    AddIndex(l0, d, mid, NotesCreatedAt, Notes, CreatedAt);
    ReadyAfterNotes(d, Db(mid.tables, mid.indexes[NotesCreatedAt := IndexDef(Notes, CreatedAt)]));
  }

  lemma ReadyAfterNotes(a: Db, b: Db)
    requires Ready(a, V5) && b.tables == a.tables[Notes := BaseTable(Notes)]
    ensures Ready(b, V6)
  {
    hide BaseTable;
  }

  lemma V7Builds(d: Db)
    requires Formed(d) && Ready(d, V6)
    ensures ApplyAll(V7_UP, d).Some?
  {
    hide Formed, ApplyAll;
    NoOps(d);
    var l0 := [] + [AddColumn(Prs, TylerNote, OPT)];
    assert l0 + [AddColumn(Decisions, TylerNote, OPT)] == V7_UP;
    var d0 := AddOne([], d, d, Prs, TylerNote, OPT, {TylerNote});
    var d1 := AddOne(l0, d, d0, Decisions, TylerNote, OPT, {TylerNote});
  }

  /** Every revision has a schema: its upgrade applies to the one before. */
  lemma {:induction false} SchemasExist(r: Rev)
    ensures ShapeAt(r).Some?
    ensures r != Base && r != V1 && r != V7 ==> Ready(ShapeAt(r).value, r)
    decreases Age(r)
  {
    hide Formed, ApplyAll, Ready, V4_UP, V5_UP, V6_UP, V7_UP;
    match r
    case Base =>
    case V1 => V1Exists();
    case V3 => V3Exists();
    case V4 => SchemasExist(V3); V4Builds(ShapeAt(V3).value);
    case V5 => SchemasExist(V4); V5Builds(ShapeAt(V4).value);
    case V6 => SchemasExist(V5); V6Builds(ShapeAt(V5).value);
    case V7 => SchemasExist(V6); V7Builds(ShapeAt(V6).value);
  }
}
