/** The typed task table is the SQL table: what Tasks.dfy does to a task is what the
    statements built by emctl/repo/_sql.py do to its row, column by column. */
module TaskRows {
  import opened Prelude
  import opened Sql
  import opened Supply
  import T = Tasks
  import TaskStore

  // ----- a task as a row of the tasks table

  const COLUMNS: set<string> := {
    "id", "project_id", "title", "spec", "status", "blocked", "blocked_reason", "role", "model_tier",
    "prd_ref", "branch", "depends_on", "groom_rank", "created_at", "updated_at"}

  function StatusText(s: T.Status): string {
    match s
    case Backlog => "backlog" case Planned => "planned" case InProgress => "in_progress"
    case InReview => "in_review" case AwaitingTyler => "awaiting_tyler" case Done => "done"
  }

  function TierText(t: T.Tier): string {
    match t case Plan => "plan" case Execute => "execute" case Local => "local"
  }

  function Nullable(v: Option<Value>): Value {
    v.Or(Null)
  }

  function ColumnOf(id: int, t: T.Task, k: string): Value {
    if k == "id" then Int(id)
    else if k == "project_id" then Int(t.project)
    else if k == "title" then Text(t.title)
    else if k == "spec" then Nullable(TextOf(t.spec))
    else if k == "status" then Text(StatusText(t.status))
    else if k == "blocked" then Flag(t.blocked)
    else if k == "blocked_reason" then Nullable(TextOf(t.blockedReason))
    else if k == "role" then Nullable(TextOf(t.role))
    else if k == "model_tier" then Text(TierText(t.tier))
    else if k == "prd_ref" then Nullable(TextOf(t.prdRef))
    else if k == "branch" then Nullable(TextOf(t.branch))
    else if k == "depends_on" then Ints(t.dependsOn)
    else if k == "groom_rank" then Nullable(IntOf(t.rank))
    else if k == "created_at" then Time(t.createdAt)
    else if k == "updated_at" then Time(t.updatedAt)
    else Null
  }

  function RowOf(id: int, t: T.Task): Row {
    map k | k in COLUMNS :: ColumnOf(id, t, k)
  }

  /** The texts of the two vocabularies. */
  lemma TextsAre()
    ensures StatusText(T.Backlog) == "backlog" && StatusText(T.Planned) == "planned"
    ensures StatusText(T.InProgress) == "in_progress" && StatusText(T.InReview) == "in_review"
    ensures StatusText(T.AwaitingTyler) == "awaiting_tyler" && StatusText(T.Done) == "done"
    ensures TierText(T.Plan) == "plan" && TierText(T.Execute) == "execute" && TierText(T.Local) == "local"
  {
  }

  /** The row of a task holds each of its fields in the column of that name. */
  lemma RowReads(id: int, t: T.Task)
    ensures RowOf(id, t).Keys == COLUMNS
    ensures var row := RowOf(id, t);
            && "id" in row && row["id"] == Int(id)
            && "project_id" in row && row["project_id"] == Int(t.project)
            && "title" in row && row["title"] == Text(t.title)
            && "spec" in row && row["spec"] == (if t.spec.Some? then Text(t.spec.value) else Null)
            && "status" in row && row["status"] == Text(StatusText(t.status))
            && "blocked" in row && row["blocked"] == Flag(t.blocked)
            && "blocked_reason" in row
            && row["blocked_reason"] == (if t.blockedReason.Some? then Text(t.blockedReason.value) else Null)
    ensures var row := RowOf(id, t);
            && "role" in row && row["role"] == (if t.role.Some? then Text(t.role.value) else Null)
            && "model_tier" in row && row["model_tier"] == Text(TierText(t.tier))
            && "prd_ref" in row && row["prd_ref"] == (if t.prdRef.Some? then Text(t.prdRef.value) else Null)
            && "branch" in row && row["branch"] == (if t.branch.Some? then Text(t.branch.value) else Null)
            && "depends_on" in row && row["depends_on"] == Ints(t.dependsOn)
            && "groom_rank" in row && row["groom_rank"] == (if t.rank.Some? then Int(t.rank.value) else Null)
            && "created_at" in row && row["created_at"] == Time(t.createdAt)
            && "updated_at" in row && row["updated_at"] == Time(t.updatedAt)
  {
    hide StatusText, TierText;
    FirstColumns(id, t);
    LastColumns(id, t);
    MoreColumns(id, t);
    hide ColumnOf;
  }

  lemma FirstColumns(id: int, t: T.Task)
    ensures ColumnOf(id, t, "id") == Int(id) && ColumnOf(id, t, "project_id") == Int(t.project)
    ensures ColumnOf(id, t, "title") == Text(t.title)
    ensures ColumnOf(id, t, "spec") == if t.spec.Some? then Text(t.spec.value) else Null
    ensures ColumnOf(id, t, "status") == Text(StatusText(t.status))
    ensures ColumnOf(id, t, "blocked") == Flag(t.blocked)
    ensures ColumnOf(id, t, "blocked_reason") == if t.blockedReason.Some? then Text(t.blockedReason.value) else Null
  {
    hide StatusText, TierText;
  }

  lemma LastColumns(id: int, t: T.Task)
    ensures ColumnOf(id, t, "role") == if t.role.Some? then Text(t.role.value) else Null
    ensures ColumnOf(id, t, "model_tier") == Text(TierText(t.tier))
    ensures ColumnOf(id, t, "prd_ref") == if t.prdRef.Some? then Text(t.prdRef.value) else Null
    ensures ColumnOf(id, t, "branch") == if t.branch.Some? then Text(t.branch.value) else Null
  {
    hide StatusText, TierText;
  }

  lemma MoreColumns(id: int, t: T.Task)
    ensures ColumnOf(id, t, "depends_on") == Ints(t.dependsOn)
    ensures ColumnOf(id, t, "groom_rank") == if t.rank.Some? then Int(t.rank.value) else Null
    ensures ColumnOf(id, t, "created_at") == Time(t.createdAt)
    ensures ColumnOf(id, t, "updated_at") == Time(t.updatedAt)
  {
    hide StatusText, TierText;
  }

  // Migrations 0001 and 0005.
  function DefaultFor(k: string): Default {
    if k == "id" then Serial
    else if k == "status" then Literal(Text("backlog"))
    else if k == "blocked" then Literal(Flag(false))
    else if k == "model_tier" then Literal(Text("execute"))
    else if k == "depends_on" then Literal(Ints([]))
    else if k == "created_at" || k == "updated_at" then NowDefault
    else Literal(Null)
  }

  /** The SQL table holds these tasks; its constraints ask for an existing project. */
  ghost predicate Shows(t: Table, tasks: map<int, T.Task>, projects: set<int>) {
    && t.defaults == (map k | k in COLUMNS :: DefaultFor(k))
    && t.rows.Keys == tasks.Keys
    && (forall id | id in tasks ::
          t.rows[id] == RowOf(id, tasks[id]) && tasks[id].project in projects && id <= t.last)
    && (forall id, task: T.Task :: t.accepts(RowOf(id, task)) <==> task.project in projects)
  }

  // ----- the dicts

  function StatusFlag(s: Option<T.Status>): Option<Value> {
    match s case None => None case Some(v) => Some(Text(StatusText(v)))
  }

  function TierFlag(t: Option<T.Tier>): Option<Value> {
    match t case None => None case Some(v) => Some(Text(TierText(v)))
  }

  function IntsFlag(ns: Option<seq<int>>): Option<Value> {
    match ns case None => None case Some(v) => Some(Ints(v))
  }

  const PATCH_NAMES: seq<string> :=
    ["status", "role", "model_tier", "prd_ref", "branch", "depends_on", "blocked", "blocked_reason"]

  function PatchFlag(p: T.Patch): string -> Option<Value> {
    k => if k == "status" then StatusFlag(p.status)
         else if k == "blocked" then
           (match p.block case None => None case Some(reason) => Some(Flag(reason.Some?)))
         else if k == "blocked_reason" then
           (match p.block case None => None case Some(reason) => Some(Nullable(TextOf(reason))))
         else if k == "role" then TextOf(p.role)
         else if k == "model_tier" then TierFlag(p.tier)
         else if k == "prd_ref" then TextOf(p.prdRef)
         else if k == "branch" then TextOf(p.branch)
         else if k == "depends_on" then IntsFlag(p.dependsOn)
         else None
  }

  const NEW_NAMES: seq<string> :=
    ["project_id", "title", "spec", "role", "model_tier", "prd_ref", "status", "branch", "depends_on"]

  function NewFlag(n: T.NewTask): string -> Option<Value> {
    k => if k == "project_id" then Some(Int(n.project))
         else if k == "title" then Some(Text(n.title))
         else if k == "spec" then TextOf(n.spec)
         else if k == "status" then StatusFlag(n.status)
         else if k == "role" then TextOf(n.role)
         else if k == "model_tier" then TierFlag(n.tier)
         else if k == "prd_ref" then TextOf(n.prdRef)
         else if k == "branch" then TextOf(n.branch)
         else if k == "depends_on" then IntsFlag(n.dependsOn)
         else None
  }

  lemma NamesAreColumns()
    ensures Distinct(PATCH_NAMES) && Distinct(NEW_NAMES)
    ensures forall i | 0 <= i < |PATCH_NAMES| :: PATCH_NAMES[i] in COLUMNS && PATCH_NAMES[i] != "updated_at"
    ensures forall i | 0 <= i < |NEW_NAMES| :: NEW_NAMES[i] in COLUMNS && NEW_NAMES[i] != "id"
    ensures "updated_at" in COLUMNS && "groom_rank" in COLUMNS && "groom_rank" != "updated_at"
  {
  }

  // A name without a column in the dict has no flag.
  lemma PatchUnnamed(p: T.Patch, k: string)
    requires k !in PATCH_NAMES
    ensures PatchFlag(p)(k) == None
  {
    PatchNamed();
    hide PATCH_NAMES;
  }

  lemma NewUnnamed(n: T.NewTask, k: string)
    requires k !in NEW_NAMES
    ensures NewFlag(n)(k) == None
  {
    NewNamed();
    hide NEW_NAMES;
  }

  lemma PatchNamed()
    ensures "status" in PATCH_NAMES && "blocked" in PATCH_NAMES && "blocked_reason" in PATCH_NAMES
    ensures "role" in PATCH_NAMES && "model_tier" in PATCH_NAMES && "prd_ref" in PATCH_NAMES
    ensures "branch" in PATCH_NAMES && "depends_on" in PATCH_NAMES
  {
    assert PATCH_NAMES[0] == "status" && PATCH_NAMES[1] == "role" && PATCH_NAMES[2] == "model_tier";
    assert PATCH_NAMES[3] == "prd_ref" && PATCH_NAMES[4] == "branch" && PATCH_NAMES[5] == "depends_on";
    assert PATCH_NAMES[6] == "blocked" && PATCH_NAMES[7] == "blocked_reason";
  }

  lemma NewNamed()
    ensures "project_id" in NEW_NAMES && "title" in NEW_NAMES && "spec" in NEW_NAMES && "role" in NEW_NAMES
    ensures "model_tier" in NEW_NAMES && "prd_ref" in NEW_NAMES && "status" in NEW_NAMES
    ensures "branch" in NEW_NAMES && "depends_on" in NEW_NAMES
  {
    assert NEW_NAMES[0] == "project_id" && NEW_NAMES[1] == "title" && NEW_NAMES[2] == "spec";
    assert NEW_NAMES[3] == "role" && NEW_NAMES[4] == "model_tier" && NEW_NAMES[5] == "prd_ref";
    assert NEW_NAMES[6] == "status" && NEW_NAMES[7] == "branch" && NEW_NAMES[8] == "depends_on";
  }

  // ----- column by column

  lemma PatchedColumn(id: int, t: T.Task, p: T.Patch, now: int, k: string)
    requires k != "updated_at"
    ensures PatchFlag(p)(k).Or(ColumnOf(id, t, k)) == ColumnOf(id, T.Patched(t, p, now), k)
  {
    hide StatusText, TierText, COLUMNS;
  }

  lemma InsertedColumn(id: int, n: T.NewTask, now: int, k: string)
    ensures NewFlag(n)(k).Or(DefaultOf(DefaultFor(k), id, now)) == ColumnOf(id, T.Inserted(n, now), k)
  {
  }

  lemma RankedColumn(id: int, t: T.Task, rank: int, now: int, k: string)
    ensures ColumnOf(id, t.(rank := Some(rank), updatedAt := now), k) ==
            if k == "updated_at" then Time(now) else if k == "groom_rank" then Int(rank) else ColumnOf(id, t, k)
  {
  }

  // ----- row by row

  function PatchDict(p: T.Patch): Dict {
    Supplied(Flags(PATCH_NAMES, PatchFlag(p)))
  }

  function NewDict(n: T.NewTask): Dict {
    Supplied(Flags(NEW_NAMES, NewFlag(n)))
  }

  lemma PatchedValue(id: int, t: T.Task, p: T.Patch, now: int, k: string)
    requires k in COLUMNS
    ensures RowOf(id, T.Patched(t, p, now))[k] ==
            if k == "updated_at" then Time(now)
            else if k in PATCH_NAMES then PatchFlag(p)(k).Or(RowOf(id, t)[k]) else RowOf(id, t)[k]
  {
    if k == "updated_at" {
      UpdatedColumn(id, t, p, now);
    } else {
      PatchedColumn(id, t, p, now, k);
      if k !in PATCH_NAMES { PatchUnnamed(p, k); }
    }
    hide ColumnOf, PatchFlag, T.Patched, PATCH_NAMES, COLUMNS;
  }

  lemma UpdatedColumn(id: int, t: T.Task, p: T.Patch, now: int)
    ensures "updated_at" in COLUMNS && ColumnOf(id, T.Patched(t, p, now), "updated_at") == Time(now)
  {
    hide StatusText, TierText;
  }

  lemma PatchedRow(id: int, t: T.Task, p: T.Patch, now: int)
    ensures Over(RowOf(id, t), PatchDict(p) + [("updated_at", Time(now))]) == RowOf(id, T.Patched(t, p, now))
  {
    hide ColumnOf, PatchFlag, Over, Supplied, Flags, T.Patched;
    NamesAreColumns();
    hide COLUMNS, PATCH_NAMES;
    var row, after := RowOf(id, t), RowOf(id, T.Patched(t, p, now));
    OverNamed(row, PATCH_NAMES, PatchFlag(p));
    OverAppend(row, PatchDict(p), [("updated_at", Time(now))]);
    var written := Over(row, PatchDict(p));
    OneOver(written, "updated_at", Time(now));
    forall k | k in COLUMNS ensures written["updated_at" := Time(now)][k] == after[k] {
      PatchedValue(id, t, p, now, k);
    }
    assert written["updated_at" := Time(now)] == after;
  }

  lemma InsertedValue(table: Table, id: int, n: T.NewTask, now: int, k: string)
    requires k in COLUMNS
    ensures RowOf(id, T.Inserted(n, now))[k] ==
            if k in NEW_NAMES then NewFlag(n)(k).Or(DefaultOf(DefaultFor(k), id, now))
            else DefaultOf(DefaultFor(k), id, now)
  {
    InsertedColumn(id, n, now, k);
    if k !in NEW_NAMES { NewUnnamed(n, k); }
    hide ColumnOf, NewFlag, T.Inserted, NEW_NAMES, COLUMNS, DefaultFor, DefaultOf;
  }

  lemma InsertedRow(table: Table, id: int, n: T.NewTask, now: int)
    requires table.defaults == map k | k in COLUMNS :: DefaultFor(k)
    ensures Over(Defaults(table, id, now), NewDict(n)) == RowOf(id, T.Inserted(n, now))
  {
    hide ColumnOf, NewFlag, Over, Supplied, Flags, T.Inserted, DefaultFor, DefaultOf;
    NamesAreColumns();
    hide COLUMNS, NEW_NAMES;
    var row, after := Defaults(table, id, now), RowOf(id, T.Inserted(n, now));
    OverNamed(row, NEW_NAMES, NewFlag(n));
    forall k | k in COLUMNS ensures Over(row, NewDict(n))[k] == after[k] {
      InsertedValue(table, id, n, now, k);
    }
    assert Over(row, NewDict(n)) == after;
  }

  lemma RankedRow(id: int, t: T.Task, rank: int, now: int)
    ensures Over(RowOf(id, t), [("groom_rank", Int(rank))] + [("updated_at", Time(now))]) ==
            RowOf(id, t.(rank := Some(rank), updatedAt := now))
  {
    hide Over, ColumnOf;
    var row, after := RowOf(id, t), RowOf(id, t.(rank := Some(rank), updatedAt := now));
    NamesAreColumns();
    hide COLUMNS;
    forall k | k in COLUMNS
      ensures after[k] == if k == "updated_at" then Time(now) else if k == "groom_rank" then Int(rank) else row[k]
    {
      RankedColumn(id, t, rank, now, k);
    }
    OverAppend(row, [("groom_rank", Int(rank))], [("updated_at", Time(now))]);
    OneOver(row, "groom_rank", Int(rank));
    OneOver(row["groom_rank" := Int(rank)], "updated_at", Time(now));
    assert row["groom_rank" := Int(rank)]["updated_at" := Time(now)] == after;
  }

  // ----- table by table

  const STAMP: seq<Assignment> := [Assignment("updated_at", Now)]

  lemma StampIs(now: int)
    ensures Fixed(STAMP, now) == [("updated_at", Time(now))] && Unbound(STAMP)
  {
  }

  /** `tasks.update`: the patched task, or not-found. */
  lemma UpdateIsPatch(table: Table, tasks: map<int, T.Task>, projects: set<int>, id: int, p: T.Patch, now: int)
    requires Shows(table, tasks, projects)
    ensures var a := UpdateMeaning(table, id, PatchDict(p), STAMP, now);
            if id !in tasks then a == Failure(table, Missing)
            else
              var t := T.Patched(tasks[id], p, now);
              && a.Answer? && a.rows == [RowOf(id, t)]
              && Shows(a.table, tasks[id := t], projects) && a.table.last == table.last
  {
    StampIs(now);
    PatchDictWorks(table, p, now);
    if id in tasks {
      PatchedRow(id, tasks[id], p, now);
      ShowsReads(table, tasks, projects, id);
      ShowsPut(table, tasks, projects, id, T.Patched(tasks[id], p, now), table.last);
      assert T.Patched(tasks[id], p, now).project == tasks[id].project;
      RowIdIs(id, T.Patched(tasks[id], p, now));
      UpdatedInPlace(table, id, RowOf(id, T.Patched(tasks[id], p, now)));
    }
    ShowsReads(table, tasks, projects, id);
    hide Stored, Shows, Over, PatchDict, RowOf, Repeats, Sql.Known, COLUMNS, DefaultFor, STAMP, T.Patched, Fixed;
  }

  lemma PatchDictWorks(table: Table, p: T.Patch, now: int)
    requires table.defaults == map k | k in COLUMNS :: DefaultFor(k)
    ensures var d := PatchDict(p) + [("updated_at", Time(now))];
            !Repeats(Keys(d)) && Sql.Known(table, Keys(d)) && d != []
  {
    NamesAreColumns();
    assert DistinctNames(Flags(PATCH_NAMES, PatchFlag(p)));
    hide PATCH_NAMES, COLUMNS, PatchFlag, DefaultFor;
    PatchWorks(table, Flags(PATCH_NAMES, PatchFlag(p)), [("updated_at", Time(now))]);
  }

  /** `tasks.create`: the next id and the new task, or a foreign-key violation that
      still draws the id. */
  lemma InsertIsCreate(table: Table, tasks: map<int, T.Task>, projects: set<int>, n: T.NewTask, now: int)
    requires Shows(table, tasks, projects)
    ensures var a, id, t := InsertMeaning(table, NewDict(n), [], now), table.last + 1, T.Inserted(n, now);
            if n.project !in projects then a == Failure(table.(last := id), Violation)
            else a.Answer? && a.rows == [RowOf(id, t)] && Shows(a.table, tasks[id := t], projects) && a.table.last == id
  {
    NewDictWorks(table, n);
    InsertedRow(table, table.last + 1, n, now);
    assert NewDict(n) + Fixed([], now) == NewDict(n);
    ShowsPut(table, tasks, projects, table.last + 1, T.Inserted(n, now), table.last + 1);
    assert T.Inserted(n, now).project == n.project;
    RowIdIs(table.last + 1, T.Inserted(n, now));
    ShowsReads(table, tasks, projects, table.last + 1);
    InsertedNext(table, NewDict(n), RowOf(table.last + 1, T.Inserted(n, now)));
    hide Stored, Drawn, Shows, Over, NewDict, RowOf, Repeats, Sql.Known;
    hide COLUMNS, DefaultFor, Defaults, T.Inserted, Fixed;
  }

  lemma ShowsPut(table: Table, tasks: map<int, T.Task>, projects: set<int>, id: int, t: T.Task, last: int)
    requires Shows(table, tasks, projects) && id <= last && table.last <= last
    ensures table.accepts(RowOf(id, t)) <==> t.project in projects
    ensures t.project in projects ==>
              Shows(table.(rows := table.rows[id := RowOf(id, t)], last := last), tasks[id := t], projects)
  {
    hide RowOf, COLUMNS, DefaultFor;
  }

  lemma RowIdIs(id: int, t: T.Task)
    ensures RowId(RowOf(id, t)) == Some(id)
  {
    assert "id" in COLUMNS;
    hide COLUMNS;
  }

  lemma ShowsReads(table: Table, tasks: map<int, T.Task>, projects: set<int>, id: int)
    requires Shows(table, tasks, projects)
    ensures (id in table.rows <==> id in tasks) && (id in tasks ==> id <= table.last)
    ensures id in tasks ==> table.rows[id] == RowOf(id, tasks[id]) && tasks[id].project in projects
  {
    hide RowOf, COLUMNS, DefaultFor;
  }

  lemma NewDictWorks(table: Table, n: T.NewTask)
    requires table.defaults == map k | k in COLUMNS :: DefaultFor(k)
    ensures !Repeats(Keys(NewDict(n))) && Sql.Known(table, Keys(NewDict(n))) && NewDict(n) != []
    ensures "id" !in Keys(NewDict(n))
  {
    hide *;
    assert table.defaults.Keys == COLUMNS;
    NewFlagNames(n);
    FlagsWork(table, Flags(NEW_NAMES, NewFlag(n)), "id");
    NewDictIs(n);
  }

  lemma NewDictIs(n: T.NewTask)
    ensures NewDict(n) == Supplied(Flags(NEW_NAMES, NewFlag(n)))
  {
    hide Supplied, Flags, NewFlag, NEW_NAMES;
  }

  lemma NewFlagNames(n: T.NewTask)
    ensures var flags := Flags(NEW_NAMES, NewFlag(n));
            && flags != [] && flags[0].1.Some?
            && (forall i, j | 0 <= i < j < |flags| :: flags[i].0 != flags[j].0)
            && forall i | 0 <= i < |flags| :: flags[i].0 in COLUMNS && flags[i].0 != "id"
  {
    var flags := Flags(NEW_NAMES, NewFlag(n));
    assert flags[0] == ("project_id", Some(Int(n.project)));
    NamesAreColumns();
    assert |flags| == |NEW_NAMES| && forall i | 0 <= i < |flags| :: flags[i].0 == NEW_NAMES[i];
    assert Distinct(NEW_NAMES);
    hide NEW_NAMES, COLUMNS, NewFlag, Flags;
  }

  /** The UPDATE that `reorder` issues for one id. */
  lemma UpdateIsRank(table: Table, tasks: map<int, T.Task>, projects: set<int>, id: int, rank: int, now: int)
    requires Shows(table, tasks, projects)
    ensures var a := UpdateMeaning(table, id, [("groom_rank", Int(rank))], STAMP, now);
            if id !in tasks then a == Failure(table, Missing)
            else
              var t := tasks[id].(rank := Some(rank), updatedAt := now);
              && a.Answer? && a.rows == [RowOf(id, t)] && Shows(a.table, tasks[id := t], projects)
  {
    StampIs(now);
    NamesAreColumns();
    var d := [("groom_rank", Int(rank))] + [("updated_at", Time(now))];
    assert Keys(d) == ["groom_rank", "updated_at"];
    assert !Repeats(Keys(d)) && Sql.Known(table, Keys(d));
    if id in tasks {
      RankedRow(id, tasks[id], rank, now);
      ShowsReads(table, tasks, projects, id);
      ShowsPut(table, tasks, projects, id, tasks[id].(rank := Some(rank), updatedAt := now), table.last);
      RowIdIs(id, tasks[id].(rank := Some(rank), updatedAt := now));
      UpdatedInPlace(table, id, RowOf(id, tasks[id].(rank := Some(rank), updatedAt := now)));
    }
    ShowsReads(table, tasks, projects, id);
    hide Stored, Shows, Over, RowOf, Repeats, Sql.Known, COLUMNS, DefaultFor, STAMP, Fixed;
  }

  // ----- the repository and the command that feeds it

  // `task update`: the dict grows flag by flag.
  method CliValues(f: T.Flags) returns (values: Dict)
    requires !(f.blockedReason.Some? && f.unblock)
    ensures values == PatchDict(T.PatchOf(f))
    ensures Takes(values, "status", if f.status.Some? then Some(Text(StatusText(f.status.value))) else None)
    ensures Takes(values, "role", if f.role.Some? then Some(Text(f.role.value)) else None)
    ensures Takes(values, "model_tier", if f.tier.Some? then Some(Text(TierText(f.tier.value))) else None)
    ensures Takes(values, "prd_ref", if f.prdRef.Some? then Some(Text(f.prdRef.value)) else None)
    ensures Takes(values, "branch", if f.branch.Some? then Some(Text(f.branch.value)) else None)
    ensures Takes(values, "depends_on", if f.dependsOn != [] then Some(Ints(f.dependsOn)) else None)
    ensures Takes(values, "blocked",
                  if f.unblock then Some(Flag(false)) else if f.blockedReason.Some? then Some(Flag(true)) else None)
    ensures Takes(values, "blocked_reason",
                  if f.unblock then Some(Null)
                  else if f.blockedReason.Some? then Some(Text(f.blockedReason.value)) else None)
    ensures forall i | 0 <= i < |values| :: values[i].0 in PATCH_NAMES
  {
    ghost var p := T.PatchOf(f);
    ghost var flags := Flags(PATCH_NAMES, PatchFlag(p));
    FlagsAre(p);
    BlockFlags(f);
    PrefixesSupplied(flags);
    hide PatchFlag, StatusText, TierText, Supplied, Flags;
    values := [];
    if f.status.Some? { values := values + [("status", Text(StatusText(f.status.value)))]; }
    assert values == Supplied(flags[..1]);
    if f.role.Some? { values := values + [("role", Text(f.role.value))]; }
    assert values == Supplied(flags[..2]);
    if f.tier.Some? { values := values + [("model_tier", Text(TierText(f.tier.value)))]; }
    assert values == Supplied(flags[..3]);
    if f.prdRef.Some? { values := values + [("prd_ref", Text(f.prdRef.value))]; }
    assert values == Supplied(flags[..4]);
    if f.branch.Some? { values := values + [("branch", Text(f.branch.value))]; }
    assert values == Supplied(flags[..5]);
    if f.dependsOn != [] { values := values + [("depends_on", Ints(f.dependsOn))]; }
    assert values == Supplied(flags[..6]);
    if f.blockedReason.Some? {
      values := values + [("blocked", Flag(true))];
      values := values + [("blocked_reason", Text(f.blockedReason.value))];
    }
    if f.unblock {
      values := values + [("blocked", Flag(false))];
      values := values + [("blocked_reason", Null)];
    }
    assert values == Supplied(flags[..8]);
    CliTakes(f);
  }

  // What each column takes from the flags.
  lemma CliTakes(f: T.Flags)
    requires !(f.blockedReason.Some? && f.unblock)
    ensures var d := PatchDict(T.PatchOf(f));
            && Takes(d, "status", if f.status.Some? then Some(Text(StatusText(f.status.value))) else None)
            && Takes(d, "role", if f.role.Some? then Some(Text(f.role.value)) else None)
            && Takes(d, "model_tier", if f.tier.Some? then Some(Text(TierText(f.tier.value))) else None)
            && Takes(d, "prd_ref", if f.prdRef.Some? then Some(Text(f.prdRef.value)) else None)
            && Takes(d, "branch", if f.branch.Some? then Some(Text(f.branch.value)) else None)
            && Takes(d, "depends_on", if f.dependsOn != [] then Some(Ints(f.dependsOn)) else None)
            && Takes(d, "blocked",
                     if f.unblock then Some(Flag(false)) else if f.blockedReason.Some? then Some(Flag(true)) else None)
            && Takes(d, "blocked_reason",
                     if f.unblock then Some(Null)
                     else if f.blockedReason.Some? then Some(Text(f.blockedReason.value)) else None)
            && forall i | 0 <= i < |d| :: d[i].0 in PATCH_NAMES
  {
    var p := T.PatchOf(f);
    var flags := Flags(PATCH_NAMES, PatchFlag(p));
    FlagsAre(p);
    BlockFlags(f);
    PatchFlagNames(p);
    hide PatchFlag, StatusText, TierText, Supplied, Flags, Takes, PATCH_NAMES, DistinctNames;
    SuppliedTakes(flags);
    SuppliedNames(flags);
  }

  lemma PatchFlagNames(p: T.Patch)
    ensures DistinctNames(Flags(PATCH_NAMES, PatchFlag(p)))
    ensures forall i | 0 <= i < |Flags(PATCH_NAMES, PatchFlag(p))| ::
              Flags(PATCH_NAMES, PatchFlag(p))[i].0 in PATCH_NAMES
  {
    NamesAreColumns();
    hide PATCH_NAMES, PatchFlag;
  }

  lemma BlockFlags(f: T.Flags)
    requires !(f.blockedReason.Some? && f.unblock)
    ensures var p := T.PatchOf(f);
            var (b, r) := (PatchFlag(p)("blocked"), PatchFlag(p)("blocked_reason"));
            if f.unblock then b == Some(Flag(false)) && r == Some(Null)
            else if f.blockedReason.Some?
            then b == Some(Flag(true)) && r == Some(Text(f.blockedReason.value))
            else b == None && r == None
  {
  }

  lemma FlagsAre(p: T.Patch)
    ensures var flags := Flags(PATCH_NAMES, PatchFlag(p));
            && |flags| == 8
            && flags[0] == ("status", StatusFlag(p.status)) && flags[1] == ("role", TextOf(p.role))
            && flags[2] == ("model_tier", TierFlag(p.tier)) && flags[3] == ("prd_ref", TextOf(p.prdRef))
            && flags[4] == ("branch", TextOf(p.branch)) && flags[5] == ("depends_on", IntsFlag(p.dependsOn))
            && flags[6] == ("blocked", PatchFlag(p)("blocked"))
            && flags[7] == ("blocked_reason", PatchFlag(p)("blocked_reason"))
  {
  }

  // The dict of a new task: the two required columns, then what was supplied.
  lemma NewFlagsInOrder(n: T.NewTask)
    ensures NewDict(n) ==
            [("project_id", Int(n.project)), ("title", Text(n.title))] +
            Supplied([("spec", TextOf(n.spec)), ("role", TextOf(n.role)), ("model_tier", TierFlag(n.tier)),
                      ("prd_ref", TextOf(n.prdRef)), ("status", StatusFlag(n.status)), ("branch", TextOf(n.branch)),
                      ("depends_on", IntsFlag(n.dependsOn))])
  {
    NewFlagsAre(n);
    hide Flags, NewFlag, StatusFlag, TextOf, TierFlag, IntsFlag;
    var flags := Flags(NEW_NAMES, NewFlag(n));
    assert flags == [flags[0]] + flags[1..];
    assert flags[1..] == [flags[1]] + flags[2..];
    assert Supplied(flags) == Entry(flags[0]) + (Entry(flags[1]) + Supplied(flags[2..])) by {
      assert flags[1..][0] == flags[1] && flags[1..][1..] == flags[2..];
    }
  }

  lemma NewFlagsAre(n: T.NewTask)
    ensures var flags := Flags(NEW_NAMES, NewFlag(n));
            && |flags| == 9
            && flags[0] == ("project_id", Some(Int(n.project))) && flags[1] == ("title", Some(Text(n.title)))
            && flags[2..] == [("spec", TextOf(n.spec)), ("role", TextOf(n.role)), ("model_tier", TierFlag(n.tier)),
                              ("prd_ref", TextOf(n.prdRef)), ("status", StatusFlag(n.status)),
                              ("branch", TextOf(n.branch)), ("depends_on", IntsFlag(n.dependsOn))]
  {
    hide TextOf, TierFlag, StatusFlag, IntsFlag;
  }

  function RowsOf(rs: seq<T.TaskRow>): seq<Row> {
    seq(|rs|, i requires 0 <= i < |rs| => RowOf(rs[i].id, rs[i].task))
  }

  class Repository {
    var table: Table
    const now: int

    constructor (t: Table, now: int)
      ensures table == t && this.now == now
    {
      table := t;
      this.now := now;
    }

    method CreateTask(n: T.NewTask, ghost tasks: map<int, T.Task>, ghost projects: set<int>) returns (r: Answer)
      requires Shows(table, tasks, projects)
      modifies this
      ensures table == r.table && table.last == old(table).last + 1
      ensures if n.project !in projects then r == Failure(old(table).(last := table.last), Violation)
              else
                var t := T.Inserted(n, now);
                && r.Answer? && r.rows == [RowOf(table.last, t)] && Shows(table, tasks[table.last := t], projects)
    {
      InsertIsCreate(table, tasks, projects, n, now);
      NewFlagsInOrder(n);
      hide *;
      var values := Collect([("project_id", Int(n.project)), ("title", Text(n.title))],
        [("spec", TextOf(n.spec)), ("role", TextOf(n.role)), ("model_tier", TierFlag(n.tier)),
         ("prd_ref", TextOf(n.prdRef)), ("status", StatusFlag(n.status)), ("branch", TextOf(n.branch)),
         ("depends_on", IntsFlag(n.dependsOn))]);
      var stmt, params := BuildInsert(values);
      r := Exec(stmt, params, table, now);
      table := r.table;
    }

    // updated_at always advances; it takes no bound value.
    method UpdateTask(id: int, values: Dict, ghost p: T.Patch, ghost tasks: map<int, T.Task>, ghost projects: set<int>)
      returns (r: Answer)
      requires Shows(table, tasks, projects) && values == PatchDict(p)
      modifies this
      ensures table == r.table && table.last == old(table).last
      ensures if id !in tasks then r == Failure(old(table), Missing)
              else
                var t := T.Patched(tasks[id], p, now);
                r.Answer? && r.rows == [RowOf(id, t)] && Shows(table, tasks[id := t], projects)
    {
      UpdateIsPatch(table, tasks, projects, id, p, now);
      StampIs(now);
      hide *;
      var stmt, params := BuildUpdate(id, values, STAMP);
      r := Fetched(Exec(stmt, params, table, now));
      table := r.table;
    }

    // One UPDATE for each rank; an unknown id stops the loop and leaves the undoing of
    // what was written to the transaction.
    method Reorder(ids: seq<int>, ghost before: T.State, ghost projects: set<int>) returns (r: Result<seq<Row>>)
      requires Shows(table, before.db.tasks, projects) && before.clock == now
      modifies this
      ensures var o := T.ReorderTasks(before, ids);
              if o.reply.Ok?
              then r == Ok(RowsOf(o.reply.value)) && Shows(table, o.state.db.tasks, projects)
              else r == Err(o.reply.error)
    {
      var updated: seq<Row> := [];
      ghost var tasks := before.db.tasks;
      hide *;
      NothingRanked(tasks, now);
      for rank := 0 to |ids|
        invariant forall j | 0 <= j < rank :: ids[j] in tasks
        invariant Shows(table, T.Ranked(tasks, ids[..rank], now), projects)
        invariant updated == RowsOf(T.RankedRows(tasks, ids[..rank], now))
      {
        var id := ids[rank];
        OneRank(table, tasks, projects, ids, rank, now);
        var row := RankAnswer(table, id, rank, now);
        table := row.table;
        if row.Failure? {
          TaskStore.ReorderStops(before, ids, rank);
          return Err(NotFound("task", id));
        }
        updated := updated + [row.rows[0]];
      }
      TaskStore.ReorderStops(before, ids, |ids|);
      r := Ok(updated);
    }
  }

  lemma NothingRanked(tasks: map<int, T.Task>, now: int)
    ensures T.Ranked(tasks, [], now) == tasks && RowsOf(T.RankedRows(tasks, [], now)) == []
  {
    TaskStore.FirstRank(tasks, now);
  }

  // The UPDATE of one rank, run.
  function RankAnswer(table: Table, id: int, rank: int, now: int): Answer {
    Fetched(Exec(Update([Assignment("groom_rank", Placeholder), Assignment("updated_at", Now)]),
                 [Int(rank), Int(id)], table, now))
  }

  // One turn of the loop.
  lemma OneRank(table: Table, tasks: map<int, T.Task>, projects: set<int>, ids: seq<int>, rank: nat, now: int)
    requires rank < |ids| && forall j | 0 <= j < rank :: ids[j] in tasks
    requires Shows(table, T.Ranked(tasks, ids[..rank], now), projects)
    ensures var a := RankAnswer(table, ids[rank], rank, now);
            if ids[rank] in tasks
            then a.Answer? && |a.rows| == 1 && Shows(a.table, T.Ranked(tasks, ids[..rank + 1], now), projects)
                 && RowsOf(T.RankedRows(tasks, ids[..rank + 1], now)) ==
                    RowsOf(T.RankedRows(tasks, ids[..rank], now)) + [a.rows[0]]
            else a.Failure?
  {
    hide *;
    var id, before := ids[rank], T.Ranked(tasks, ids[..rank], now);
    RankStatement(table, id, rank, now);
    UpdateIsRank(table, before, projects, id, rank, now);
    if id in tasks {
      assert ids[..rank + 1] == ids[..rank] + [id];
      TaskStore.RankedSnoc(tasks, ids[..rank], id, now);
      var row := T.TaskRow(id, before[id].(rank := Some(rank), updatedAt := now));
      RowsOfSnoc(T.RankedRows(tasks, ids[..rank], now), row);
    }
  }

  lemma RankStatement(table: Table, id: int, rank: int, now: int)
    ensures RankAnswer(table, id, rank, now) == UpdateMeaning(table, id, [("groom_rank", Int(rank))], STAMP, now)
  {
    var d := [("groom_rank", Int(rank))];
    StampIs(now);
    assert Settings(d) + STAMP == [Assignment("groom_rank", Placeholder), Assignment("updated_at", Now)];
    assert Values(d) + [Int(id)] == [Int(rank), Int(id)];
    hide Exec, Fetched, UpdateMeaning, STAMP;
    UpdateRuns(table, id, d, STAMP, now);
  }

  lemma RowsOfSnoc(rs: seq<T.TaskRow>, r: T.TaskRow)
    ensures RowsOf(rs + [r]) == RowsOf(rs) + [RowOf(r.id, r.task)]
  {
    hide RowOf;
  }
}
