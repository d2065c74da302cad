/** The typed pull requests of Approvals.dfy are the rows of the prs table: the UPDATE
    that emctl/repo/prs.py builds means the typed patch, column by column, and stamps
    `decided_at` with every ruling. */
module PrRows {
  import opened Prelude
  import opened Sql
  import opened Supply
  import A = Approvals

  // Migrations 0001, 0003 and 0007.
  const COLUMNS: set<string> := {
    "id", "project_id", "github_pr", "status", "risk_level", "em_summary", "tyler_decision", "decided_at",
    "task_id", "tyler_note"}

  function StatusText(s: A.PrStatus): string {
    match s case Open => "open" case Merged => "merged" case Rejected => "rejected" case Closed => "closed"
  }

  function RiskText(r: A.RiskLevel): string {
    match r case Low => "low" case Medium => "medium" case High => "high"
  }

  function StatusFlag(s: Option<A.PrStatus>): Option<Value> {
    match s case None => None case Some(v) => Some(Text(StatusText(v)))
  }

  function RiskFlag(r: Option<A.RiskLevel>): Option<Value> {
    match r case None => None case Some(v) => Some(Text(RiskText(v)))
  }

  function TimeOf(t: Option<int>): Option<Value> {
    match t case None => None case Some(v) => Some(Time(v))
  }

  function ColumnOf(id: int, pr: A.Pr, k: string): Value {
    if k == "id" then Int(id)
    else if k == "project_id" then Int(pr.project)
    else if k == "github_pr" then Int(pr.githubPr)
    else if k == "status" then Text(StatusText(pr.status))
    else if k == "risk_level" then RiskFlag(pr.risk).Or(Null)
    else if k == "em_summary" then TextOf(pr.summary).Or(Null)
    else if k == "tyler_decision" then TextOf(pr.decision).Or(Null)
    else if k == "decided_at" then TimeOf(pr.decidedAt).Or(Null)
    else if k == "task_id" then IntOf(pr.task).Or(Null)
    else if k == "tyler_note" then TextOf(pr.note).Or(Null)
    else Null
  }

  function RowOf(id: int, pr: A.Pr): Row {
    map k | k in COLUMNS :: ColumnOf(id, pr, k)
  }

  /** The texts of the two vocabularies. */
  lemma TextsAre()
    ensures StatusText(A.Open) == "open" && StatusText(A.Merged) == "merged"
    ensures StatusText(A.Rejected) == "rejected" && StatusText(A.Closed) == "closed"
    ensures RiskText(A.Low) == "low" && RiskText(A.Medium) == "medium" && RiskText(A.High) == "high"
  {
  }

  /** The row of a pull request holds each of its fields in the column of that name. */
  lemma RowReads(id: int, pr: A.Pr)
    ensures RowOf(id, pr).Keys == COLUMNS
    ensures var row := RowOf(id, pr);
            && "id" in row && row["id"] == Int(id)
            && "project_id" in row && row["project_id"] == Int(pr.project)
            && "github_pr" in row && row["github_pr"] == Int(pr.githubPr)
            && "status" in row && row["status"] == Text(StatusText(pr.status))
            && "risk_level" in row
            && row["risk_level"] == (if pr.risk.Some? then Text(RiskText(pr.risk.value)) else Null)
            && "em_summary" in row && row["em_summary"] == (if pr.summary.Some? then Text(pr.summary.value) else Null)
            && "tyler_decision" in row
            && row["tyler_decision"] == (if pr.decision.Some? then Text(pr.decision.value) else Null)
            && "decided_at" in row
            && row["decided_at"] == (if pr.decidedAt.Some? then Time(pr.decidedAt.value) else Null)
            && "task_id" in row && row["task_id"] == (if pr.task.Some? then Int(pr.task.value) else Null)
            && "tyler_note" in row && row["tyler_note"] == (if pr.note.Some? then Text(pr.note.value) else Null)
  {
    hide StatusText, RiskText;
    FirstColumns(id, pr);
    LastColumns(id, pr);
    hide ColumnOf;
  }

  lemma FirstColumns(id: int, pr: A.Pr)
    ensures ColumnOf(id, pr, "id") == Int(id) && ColumnOf(id, pr, "project_id") == Int(pr.project)
    ensures ColumnOf(id, pr, "github_pr") == Int(pr.githubPr)
    ensures ColumnOf(id, pr, "status") == Text(StatusText(pr.status))
    ensures ColumnOf(id, pr, "risk_level") == if pr.risk.Some? then Text(RiskText(pr.risk.value)) else Null
    ensures ColumnOf(id, pr, "em_summary") == if pr.summary.Some? then Text(pr.summary.value) else Null
  {
    hide StatusText, RiskText;
  }

  lemma LastColumns(id: int, pr: A.Pr)
    ensures ColumnOf(id, pr, "tyler_decision") == if pr.decision.Some? then Text(pr.decision.value) else Null
    ensures ColumnOf(id, pr, "decided_at") == if pr.decidedAt.Some? then Time(pr.decidedAt.value) else Null
    ensures ColumnOf(id, pr, "task_id") == if pr.task.Some? then Int(pr.task.value) else Null
    ensures ColumnOf(id, pr, "tyler_note") == if pr.note.Some? then Text(pr.note.value) else Null
  {
    hide StatusText, RiskText;
  }

  /** The SQL table holds these pull requests; a row must name an existing project and,
      if any, an existing task. */
  ghost predicate Shows(t: Table, prs: map<int, A.Pr>, w: A.World) {
    && t.defaults.Keys == COLUMNS
    && t.rows.Keys == prs.Keys
    && (forall id | id in prs ::
          t.rows[id] == RowOf(id, prs[id]) && prs[id].project in w.projects && A.Refers(prs[id].task, w.tasks))
    && (forall id, pr: A.Pr ::
          t.accepts(RowOf(id, pr)) <==> pr.project in w.projects && A.Refers(pr.task, w.tasks))
  }

  // The keyword arguments of `prs.update`.
  datatype Change = Change(
    status: Option<A.PrStatus>, risk: Option<A.RiskLevel>, summary: Option<string>,
    decision: Option<string>, task: Option<int>, note: Option<string>)

  function Changed(pr: A.Pr, c: Change, now: int): A.Pr {
    A.PatchedPr(pr, c.status, c.risk, c.summary, c.decision, c.task, c.note, now)
  }

  const NAMES: seq<string> := ["status", "risk_level", "em_summary", "task_id", "tyler_note", "tyler_decision"]

  function FlagOf(c: Change): string -> Option<Value> {
    k => if k == "status" then StatusFlag(c.status)
         else if k == "risk_level" then RiskFlag(c.risk)
         else if k == "em_summary" then TextOf(c.summary)
         else if k == "task_id" then IntOf(c.task)
         else if k == "tyler_note" then TextOf(c.note)
         else if k == "tyler_decision" then TextOf(c.decision)
         else None
  }

  function ChangeDict(c: Change): Dict {
    Supplied(Flags(NAMES, FlagOf(c)))
  }

  function Stamp(c: Change): seq<Assignment> {
    if c.decision.Some? then [Assignment("decided_at", Now)] else []
  }

  /** What each column takes from the arguments, and the time that goes with a decision. */
  lemma ChangeTakes(c: Change)
    ensures var d := ChangeDict(c);
            && Takes(d, "status", if c.status.Some? then Some(Text(StatusText(c.status.value))) else None)
            && Takes(d, "risk_level", if c.risk.Some? then Some(Text(RiskText(c.risk.value))) else None)
            && Takes(d, "em_summary", if c.summary.Some? then Some(Text(c.summary.value)) else None)
            && Takes(d, "task_id", if c.task.Some? then Some(Int(c.task.value)) else None)
            && Takes(d, "tyler_note", if c.note.Some? then Some(Text(c.note.value)) else None)
            && Takes(d, "tyler_decision", if c.decision.Some? then Some(Text(c.decision.value)) else None)
            && forall i | 0 <= i < |d| :: d[i].0 in NAMES
    ensures Stamp(c) == if c.decision.Some? then [Assignment("decided_at", Now)] else []
  {
    var flags := Flags(NAMES, FlagOf(c));
    FlagsAre(c);
    FlagNames(c);
    hide FlagOf, StatusText, RiskText, Supplied, Flags, Takes, NAMES, DistinctNames;
    SuppliedTakes(flags);
    SuppliedNames(flags);
  }

  lemma FlagNames(c: Change)
    ensures DistinctNames(Flags(NAMES, FlagOf(c)))
    ensures forall i | 0 <= i < |Flags(NAMES, FlagOf(c))| :: Flags(NAMES, FlagOf(c))[i].0 in NAMES
  {
    NamesAreColumns();
    hide NAMES, FlagOf;
  }

  lemma NamesAreColumns()
    ensures Distinct(NAMES) && "decided_at" in COLUMNS
    ensures forall i | 0 <= i < |NAMES| :: NAMES[i] in COLUMNS && NAMES[i] != "decided_at"
  {
  }

  lemma Unnamed(c: Change, k: string)
    requires k !in NAMES
    ensures FlagOf(c)(k) == None
  {
    assert NAMES[0] == "status" && NAMES[1] == "risk_level" && NAMES[2] == "em_summary";
    assert NAMES[3] == "task_id" && NAMES[4] == "tyler_note" && NAMES[5] == "tyler_decision";
    hide NAMES;
  }

  lemma ChangedColumn(id: int, pr: A.Pr, c: Change, now: int, k: string)
    requires k != "decided_at"
    ensures ColumnOf(id, Changed(pr, c, now), k) == FlagOf(c)(k).Or(ColumnOf(id, pr, k))
  {
    hide StatusText, RiskText, COLUMNS;
  }

  lemma DecidedColumn(id: int, pr: A.Pr, c: Change, now: int)
    ensures FlagOf(c)("decided_at") == None
    ensures ColumnOf(id, Changed(pr, c, now), "decided_at") ==
            if c.decision.Some? then Time(now) else ColumnOf(id, pr, "decided_at")
  {
    hide StatusText, RiskText, COLUMNS;
  }

  lemma ChangedValue(id: int, pr: A.Pr, c: Change, now: int, k: string)
    requires k in COLUMNS
    ensures RowOf(id, Changed(pr, c, now))[k] ==
            if k == "decided_at" && c.decision.Some? then Time(now)
            else if k in NAMES then FlagOf(c)(k).Or(RowOf(id, pr)[k]) else RowOf(id, pr)[k]
  {
    if k == "decided_at" { DecidedColumn(id, pr, c, now); } else { ChangedColumn(id, pr, c, now, k); }
    if k !in NAMES { Unnamed(c, k); }
    hide ColumnOf, FlagOf, Changed, NAMES, COLUMNS;
  }

  lemma ChangedRow(id: int, pr: A.Pr, c: Change, now: int)
    ensures Over(RowOf(id, pr), ChangeDict(c) + Fixed(Stamp(c), now)) == RowOf(id, Changed(pr, c, now))
  {
    hide ColumnOf, FlagOf, Over, Supplied, Flags, Changed;
    NamesAreColumns();
    hide COLUMNS, NAMES;
    var row, after, fixed := RowOf(id, pr), RowOf(id, Changed(pr, c, now)), Fixed(Stamp(c), now);
    var written := Over(row, ChangeDict(c));
    OverNamed(row, NAMES, FlagOf(c));
    StampIs(c, now);
    StampedOver(row, written, c, now);
    var last := if c.decision.Some? then written["decided_at" := Time(now)] else written;
    forall k | k in COLUMNS ensures last[k] == after[k] { ChangedValue(id, pr, c, now, k); }
    assert last == after;
  }

  lemma StampIs(c: Change, now: int)
    ensures Unbound(Stamp(c))
    ensures Fixed(Stamp(c), now) == if c.decision.Some? then [("decided_at", Time(now))] else []
  {
  }

  lemma StampedOver(row: Row, written: Row, c: Change, now: int)
    requires written == Over(row, ChangeDict(c))
    ensures Over(row, ChangeDict(c) + Fixed(Stamp(c), now)) ==
            if c.decision.Some? then written["decided_at" := Time(now)] else written
  {
    hide ChangeDict;
    StampIs(c, now);
    OverAppend(row, ChangeDict(c), Fixed(Stamp(c), now));
    OneOver(written, "decided_at", Time(now));
  }

  lemma ChangeDictWorks(table: Table, c: Change, now: int)
    requires table.defaults.Keys == COLUMNS
    ensures var d := ChangeDict(c) + Fixed(Stamp(c), now); !Repeats(Keys(d)) && Sql.Known(table, Keys(d))
  {
    NamesAreColumns();
    StampIs(c, now);
    assert DistinctNames(Flags(NAMES, FlagOf(c)));
    hide NAMES, COLUMNS, FlagOf, Stamp;
    PatchWorks(table, Flags(NAMES, FlagOf(c)), Fixed(Stamp(c), now));
  }

  // Without any argument nothing changes.
  lemma NoChange(pr: A.Pr, c: Change, now: int)
    requires ChangeDict(c) + Fixed(Stamp(c), now) == []
    ensures Changed(pr, c, now) == pr
  {
    StampIs(c, now);
    forall i | 0 <= i < 6 ensures FlagOf(c)(NAMES[i]) == None {
      NothingSupplied(Flags(NAMES, FlagOf(c)), i);
    }
    FlagsByName(c);
    hide FlagOf, NAMES;
  }

  lemma FlagsByName(c: Change)
    ensures FlagOf(c)(NAMES[0]) == StatusFlag(c.status) && FlagOf(c)(NAMES[1]) == RiskFlag(c.risk)
    ensures FlagOf(c)(NAMES[2]) == TextOf(c.summary) && FlagOf(c)(NAMES[3]) == IntOf(c.task)
    ensures FlagOf(c)(NAMES[4]) == TextOf(c.note) && FlagOf(c)(NAMES[5]) == TextOf(c.decision)
  {
    hide StatusFlag, RiskFlag, TextOf, IntOf;
  }

  lemma {:induction false} NothingSupplied(optional: Optional, i: nat)
    requires i < |optional| && Supplied(optional) == []
    ensures optional[i].1 == None
  {
    assert Entry(optional[0]) == [] && Supplied(optional[1..]) == [];
    if i > 0 { NothingSupplied(optional[1..], i - 1); }
  }

  /** `prs.update` against its typed meaning: the patched row, with a fresh `decided_at`
      exactly when a decision is written; not-found; or a foreign-key violation. */
  lemma UpdateIsChange(table: Table, s: A.State, w: A.World, id: int, c: Change)
    requires Shows(table, s.db.prs, w)
    ensures var a := UpdateMeaning(table, id, ChangeDict(c), Stamp(c), w.now);
            var o := A.UpdatePr(s, w, id, c.status, c.risk, c.summary, c.decision, c.task, c.note);
            && (o.reply.Ok? ==> a.Answer? && id in o.state.db.prs && a.rows == [RowOf(id, o.state.db.prs[id])]
                                && Shows(a.table, o.state.db.prs, w))
            && (o.reply == Err(NotFound("pr", id)) ==> a == Failure(table, Missing))
            && (o.reply == Err(Conflict) ==> a == Failure(table, Violation))
            && (o.reply.Err? ==> o.reply == Err(NotFound("pr", id)) || o.reply == Err(Conflict))
  {
    ShowsReads(table, s.db.prs, w, id);
    ChangeDictWorks(table, c, w.now);
    if id in s.db.prs {
      var pr := Changed(s.db.prs[id], c, w.now);
      ChangedRow(id, s.db.prs[id], c, w.now);
      ShowsPut(table, s.db.prs, w, id, pr);
      ChangedRefers(s.db.prs[id], c, w);
      RowIdIs(id, pr);
      UpdatedInPlace(table, id, RowOf(id, pr));
      if ChangeDict(c) + Fixed(Stamp(c), w.now) == [] {
        NoChange(s.db.prs[id], c, w.now);
        assert table.rows[id := table.rows[id]] == table.rows;
      }
    }
    hide Shows, Over, RowOf, Repeats, Sql.Known, COLUMNS, Fixed, ChangeDict, Stamp, A.PatchedPr, Stored;
  }

  lemma RowIdIs(id: int, pr: A.Pr)
    ensures RowId(RowOf(id, pr)) == Some(id)
  {
    assert "id" in COLUMNS;
    hide COLUMNS;
  }

  lemma ChangedRefers(pr: A.Pr, c: Change, w: A.World)
    requires pr.project in w.projects && A.Refers(pr.task, w.tasks)
    ensures Changed(pr, c, w.now).project == pr.project
    ensures A.Refers(Changed(pr, c, w.now).task, w.tasks) <==> A.Refers(c.task, w.tasks)
  {
  }

  lemma ShowsPut(table: Table, prs: map<int, A.Pr>, w: A.World, id: int, pr: A.Pr)
    requires Shows(table, prs, w)
    ensures var ok := pr.project in w.projects && A.Refers(pr.task, w.tasks);
            && (table.accepts(RowOf(id, pr)) <==> ok)
            && (ok ==> Shows(table.(rows := table.rows[id := RowOf(id, pr)]), prs[id := pr], w))
  {
    hide RowOf, COLUMNS, A.Refers;
  }

  lemma ShowsReads(table: Table, prs: map<int, A.Pr>, w: A.World, id: int)
    requires Shows(table, prs, w)
    ensures id in table.rows <==> id in prs
    ensures id in prs ==> && table.rows[id] == RowOf(id, prs[id])
                          && prs[id].project in w.projects && A.Refers(prs[id].task, w.tasks)
  {
    hide RowOf, COLUMNS, A.Refers;
  }

  // ----- the repository

  class Repository {
    var table: Table

    constructor (t: Table)
      ensures table == t
    {
      table := t;
    }

    method Update(id: int, c: Change, now: int) returns (r: Answer)
      modifies this
      ensures r == UpdateMeaning(old(table), id, ChangeDict(c), Stamp(c), now) && table == r.table
    {
      ghost var flags := Flags(NAMES, FlagOf(c));
      FlagsAre(c);
      PrefixesSupplied(flags);
      StampIs(c, now);
      hide StatusText, RiskText, UpdateMeaning, Fixed, Supplied, Flags;
      var values: Dict := [];
      if c.status.Some? { values := values + [("status", Text(StatusText(c.status.value)))]; }
      assert values == Supplied(flags[..1]);
      if c.risk.Some? { values := values + [("risk_level", Text(RiskText(c.risk.value)))]; }
      assert values == Supplied(flags[..2]);
      if c.summary.Some? { values := values + [("em_summary", Text(c.summary.value))]; }
      assert values == Supplied(flags[..3]);
      if c.task.Some? { values := values + [("task_id", Int(c.task.value))]; }
      assert values == Supplied(flags[..4]);
      if c.note.Some? { values := values + [("tyler_note", Text(c.note.value))]; }
      assert values == Supplied(flags[..5]);
      var extra: seq<Assignment> := [];
      if c.decision.Some? {
        values := values + [("tyler_decision", Text(c.decision.value))];
        extra := extra + [Assignment("decided_at", Now)];
      }
      assert values == ChangeDict(c) && extra == Stamp(c);
      hide *;
      var stmt, params := BuildUpdate(id, values, extra);
      r := Fetched(Exec(stmt, params, table, now));
      table := r.table;
    }
  }

  lemma FlagsAre(c: Change)
    ensures var flags := Flags(NAMES, FlagOf(c));
            && |flags| == 6
            && flags[0] == ("status", StatusFlag(c.status)) && flags[1] == ("risk_level", RiskFlag(c.risk))
            && flags[2] == ("em_summary", TextOf(c.summary)) && flags[3] == ("task_id", IntOf(c.task))
            && flags[4] == ("tyler_note", TextOf(c.note)) && flags[5] == ("tyler_decision", TextOf(c.decision))
  {
    hide StatusFlag, RiskFlag, TextOf, IntOf;
  }
}
