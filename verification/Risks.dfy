/** The risk register of emctl/repo/risks.py, written through the statement builder:
    `resolved_at` is set exactly while a risk is not acknowledged. */
module Risks {
  import opened Prelude
  import opened Sql
  import opened Supply

  // The vocabulary of the CLI and of the status CHECK.
  datatype RiskStatus = Acknowledged | Mitigated | Accepted | Realized | Closed

  function StatusText(s: RiskStatus): Value {
    Text(match s
         case Acknowledged => "acknowledged" case Mitigated => "mitigated" case Accepted => "accepted"
         case Realized => "realized" case Closed => "closed")
  }

  datatype NewRisk = NewRisk(
    project: int, title: string, category: string, severity: string, body: Option<string>,
    status: Option<RiskStatus>, mitigation: Option<string>, decision: Option<int>, pr: Option<int>,
    acknowledgedBy: Option<string>)

  datatype RiskFlags = RiskFlags(
    status: Option<RiskStatus>, severity: Option<string>, mitigation: Option<string>, decision: Option<int>)

  // The defaults of the risks table (migration 0003).
  const RISK_COLUMNS: set<string> := {
    "id", "project_id", "title", "body", "category", "severity", "status", "mitigation", "decision_id", "pr_id",
    "acknowledged_by", "created_at", "resolved_at"}

  function RiskDefault(k: string): Default {
    if k == "id" then Serial
    else if k == "status" then Literal(Text("acknowledged"))
    else if k == "created_at" then NowDefault
    else Literal(Null)
  }

  const RISK_DEFAULTS: map<string, Default> := map k | k in RISK_COLUMNS :: RiskDefault(k)

  function StatusOf(s: Option<RiskStatus>): Option<Value> {
    match s case None => None case Some(v) => Some(StatusText(v))
  }

  function Required(n: NewRisk): Dict {
    [("project_id", Int(n.project)), ("title", Text(n.title)), ("category", Text(n.category)),
     ("severity", Text(n.severity))]
  }

  function AddFlags(n: NewRisk): Optional {
    [("body", TextOf(n.body)), ("status", StatusOf(n.status)), ("mitigation", TextOf(n.mitigation)),
     ("decision_id", IntOf(n.decision)), ("pr_id", IntOf(n.pr)), ("acknowledged_by", TextOf(n.acknowledgedBy))]
  }

  function UpdateFlags(f: RiskFlags): Optional {
    [("status", StatusOf(f.status)), ("severity", TextOf(f.severity)), ("mitigation", TextOf(f.mitigation)),
     ("decision_id", IntOf(f.decision))]
  }

  /** The texts of the statuses. */
  lemma TextsAre()
    ensures StatusText(Acknowledged) == Text("acknowledged") && StatusText(Mitigated) == Text("mitigated")
    ensures StatusText(Accepted) == Text("accepted") && StatusText(Realized) == Text("realized")
    ensures StatusText(Closed) == Text("closed")
  {
  }

  // Every column that an insertion may name.
  const ALL_NAMES: seq<string> :=
    ["project_id", "title", "category", "severity", "body", "status", "mitigation", "decision_id", "pr_id",
     "acknowledged_by"]

  /** What each column of a new risk takes from the flags. */
  lemma AddTakes(n: NewRisk)
    ensures var d := Required(n) + Supplied(AddFlags(n));
            && Takes(d, "project_id", Some(Int(n.project))) && Takes(d, "title", Some(Text(n.title)))
            && Takes(d, "category", Some(Text(n.category))) && Takes(d, "severity", Some(Text(n.severity)))
            && Takes(d, "body", if n.body.Some? then Some(Text(n.body.value)) else None)
            && Takes(d, "status", if n.status.Some? then Some(StatusText(n.status.value)) else None)
            && Takes(d, "mitigation", if n.mitigation.Some? then Some(Text(n.mitigation.value)) else None)
            && Takes(d, "decision_id", if n.decision.Some? then Some(Int(n.decision.value)) else None)
            && Takes(d, "pr_id", if n.pr.Some? then Some(Int(n.pr.value)) else None)
            && Takes(d, "acknowledged_by", if n.acknowledgedBy.Some? then Some(Text(n.acknowledgedBy.value)) else None)
            && forall i | 0 <= i < |d| :: d[i].0 in ALL_NAMES
  {
    var all := AllFlags(n);
    AllFlagsAre(n);
    AllDistinct(n);
    SuppliedNames(all);
    RequiredFirst(n);
    hide Supplied, AddFlags, Required, AllFlags, Takes, StatusText, DistinctNames;
    SuppliedTakes(all);
  }

  function AllFlags(n: NewRisk): Optional {
    [("project_id", Some(Int(n.project))), ("title", Some(Text(n.title))), ("category", Some(Text(n.category))),
     ("severity", Some(Text(n.severity)))] + AddFlags(n)
  }

  lemma AllFlagsAre(n: NewRisk)
    ensures var all := AllFlags(n);
            && |all| == 10
            && all[0] == ("project_id", Some(Int(n.project))) && all[1] == ("title", Some(Text(n.title)))
            && all[2] == ("category", Some(Text(n.category))) && all[3] == ("severity", Some(Text(n.severity)))
            && all[4] == ("body", if n.body.Some? then Some(Text(n.body.value)) else None)
            && all[5] == ("status", if n.status.Some? then Some(StatusText(n.status.value)) else None)
            && all[6] == ("mitigation", if n.mitigation.Some? then Some(Text(n.mitigation.value)) else None)
            && all[7] == ("decision_id", if n.decision.Some? then Some(Int(n.decision.value)) else None)
            && all[8] == ("pr_id", if n.pr.Some? then Some(Int(n.pr.value)) else None)
            && all[9] == ("acknowledged_by",
                          if n.acknowledgedBy.Some? then Some(Text(n.acknowledgedBy.value)) else None)
  {
    hide StatusText;
  }

  lemma NamesApart()
    ensures |ALL_NAMES| == 10 && forall i, j | 0 <= i < j < 10 :: ALL_NAMES[i] != ALL_NAMES[j]
  {
  }

  lemma AllDistinct(n: NewRisk)
    ensures DistinctNames(AllFlags(n))
    ensures forall i | 0 <= i < |AllFlags(n)| :: AllFlags(n)[i].0 in ALL_NAMES
  {
    var all := AllFlags(n);
    NamesApart();
    assert |all| == 10 && forall i | 0 <= i < 10 :: all[i].0 == ALL_NAMES[i];
    hide ALL_NAMES, AllFlags;
  }

  lemma RequiredFirst(n: NewRisk)
    ensures Supplied(AllFlags(n)) == Required(n) + Supplied(AddFlags(n))
  {
    var (a, b, c, d) := (("project_id", Some(Int(n.project))), ("title", Some(Text(n.title))),
                         ("category", Some(Text(n.category))), ("severity", Some(Text(n.severity))));
    var rest := AddFlags(n);
    hide AddFlags;
    assert AllFlags(n) == [a] + ([b] + ([c] + ([d] + rest)));
    SuppliedCons(d, rest);
    SuppliedCons(c, [d] + rest);
    SuppliedCons(b, [c] + ([d] + rest));
    SuppliedCons(a, [b] + ([c] + ([d] + rest)));
  }

  lemma SuppliedCons(o: (string, Option<Value>), rest: Optional)
    ensures Supplied([o] + rest) == Entry(o) + Supplied(rest)
  {
    assert ([o] + rest)[1..] == rest;
  }

  /** And of an updated one. */
  lemma UpdateTakes(f: RiskFlags)
    ensures var d := Supplied(UpdateFlags(f));
            && Takes(d, "status", if f.status.Some? then Some(StatusText(f.status.value)) else None)
            && Takes(d, "severity", if f.severity.Some? then Some(Text(f.severity.value)) else None)
            && Takes(d, "mitigation", if f.mitigation.Some? then Some(Text(f.mitigation.value)) else None)
            && Takes(d, "decision_id", if f.decision.Some? then Some(Int(f.decision.value)) else None)
            && forall i | 0 <= i < |d| :: d[i].0 in ["status", "severity", "mitigation", "decision_id"]
  {
    var flags := UpdateFlags(f);
    FlagNames(NewRisk(0, "", "", "", None, None, None, None, None, None), f);
    assert forall j | 0 <= j < 4 :: flags[j].0 in ["status", "severity", "mitigation", "decision_id"];
    assert |flags| == 4 && flags[0] == ("status", StatusOf(f.status)) && flags[1] == ("severity", TextOf(f.severity));
    assert flags[2] == ("mitigation", TextOf(f.mitigation)) && flags[3] == ("decision_id", IntOf(f.decision));
    hide UpdateFlags, Supplied, StatusText, Takes;
    SuppliedTakes(flags);
    SuppliedNames(flags);
  }

  // What the two writes mean.
  function AddMeaning(t: Table, n: NewRisk, now: int): Answer {
    InsertMeaning(t, Required(n) + Supplied(AddFlags(n)),
                  if n.status.Some? && n.status != Some(Acknowledged) then [Assignment("resolved_at", Now)] else [],
                  now)
  }

  function UpdateRisk(t: Table, id: int, f: RiskFlags, now: int): Answer {
    UpdateMeaning(t, id, Supplied(UpdateFlags(f)),
                  if f.status.None? then []
                  else [Assignment("resolved_at", if f.status.value.Acknowledged? then NullTerm else Now)],
                  now)
  }

  // ----- the register

  /** The risks table, and in it resolved_at set exactly when status has left
      'acknowledged'. */
  ghost predicate Coupled(t: Table) {
    && t.defaults == RISK_DEFAULTS
    && forall id | id in t.rows :: RowCoupled(t.rows[id])
  }

  ghost predicate RowCoupled(row: Row) {
    && "status" in row && "resolved_at" in row
    && (row["resolved_at"] == Null <==> row["status"] == Text("acknowledged"))
  }

  // ----- reading a written row

  lemma FlagNames(n: NewRisk, f: RiskFlags)
    ensures |AddFlags(n)| == 6 && DistinctNames(AddFlags(n)) && AddFlags(n)[1] == ("status", StatusOf(n.status))
    ensures |UpdateFlags(f)| == 4 && DistinctNames(UpdateFlags(f))
    ensures UpdateFlags(f)[0] == ("status", StatusOf(f.status))
    ensures forall i | 0 <= i < |AddFlags(n)| :: AddFlags(n)[i].0 != "resolved_at"
    ensures forall i | 0 <= i < |UpdateFlags(f)| :: UpdateFlags(f)[i].0 != "resolved_at"
    ensures forall i | 0 <= i < |Required(n)| :: Required(n)[i].0 != "resolved_at" && Required(n)[i].0 != "status"
  {
  }

  lemma StatusTexts(s: RiskStatus)
    ensures StatusText(s) == Text("acknowledged") <==> s == Acknowledged
  {
  }

  // The status and the stamp of a row written by flags and at most one fixed column.
  lemma WrittenRow(row: Row, head: Dict, optional: Optional, at: nat, status: Option<RiskStatus>, extra: Dict)
    requires RowCoupled(row) && DistinctNames(optional)
    requires forall i | 0 <= i < |head| :: head[i].0 != "resolved_at" && head[i].0 != "status"
    requires at < |optional| && optional[at] == ("status", StatusOf(status))
    requires forall i | 0 <= i < |optional| :: optional[i].0 != "resolved_at"
    requires extra == [] ==> status.None? || (status == Some(Acknowledged) && row["resolved_at"] == Null)
    requires extra != [] ==> exists v ::
               extra == [("resolved_at", v)] && status.Some? && (v == Null <==> status.value == Acknowledged)
    ensures RowCoupled(Over(row, head + Supplied(optional) + extra))
  {
    var r1 := Over(row, head);
    var r2 := Over(r1, Supplied(optional));
    OverAppend(row, head + Supplied(optional), extra);
    OverAppend(row, head, Supplied(optional));
    OverUntouched(row, head, "resolved_at");
    OverUntouched(row, head, "status");
    OverFlags(r1, optional, "resolved_at");
    OverFlags(r1, optional, "status");
    if status.Some? { StatusTexts(status.value); }
    if extra != [] { OneOver(r2, "resolved_at", extra[0].1); }
  }

  lemma DefaultsAreCoupled(t: Table, id: int, now: int)
    requires t.defaults == RISK_DEFAULTS
    ensures RowCoupled(Defaults(t, id, now)) && Defaults(t, id, now)["resolved_at"] == Null
  {
  }

  /** Adding a risk keeps the register coupled, also when it opens already resolved. */
  lemma AddKeepsCoupled(t: Table, n: NewRisk, now: int)
    requires Coupled(t)
    ensures Coupled(AddMeaning(t, n, now).table)
  {
    hide RowCoupled, Supplied, Over, AddFlags, Required, StatusText, RISK_COLUMNS, Defaults, Repeats, Known, Stored;
    var extra := if n.status.Some? && n.status != Some(Acknowledged) then [Assignment("resolved_at", Now)] else [];
    FlagNames(n, RiskFlags(None, None, None, None));
    DefaultsAreCoupled(t, t.last + 1, now);
    var fixed := Fixed(extra, now);
    assert extra != [] ==> fixed == [("resolved_at", Time(now))];
    WrittenRow(Defaults(t, t.last + 1, now), Required(n), AddFlags(n), 1, n.status, fixed);
    var d := Required(n) + Supplied(AddFlags(n)) + fixed;
    StoredCoupled(Drawn(t, Keys(d)), None, Over(Defaults(t, t.last + 1, now), d));
  }

  lemma StoredCoupled(t: Table, was: Option<int>, row: Row)
    requires Coupled(t) && RowCoupled(row)
    ensures Coupled(Stored(t, was, row).table)
  {
    hide RowCoupled, RISK_COLUMNS;
  }

  /** So does an update, including one that reopens the risk. */
  lemma UpdateKeepsCoupled(t: Table, id: int, f: RiskFlags, now: int)
    requires Coupled(t)
    ensures Coupled(UpdateRisk(t, id, f, now).table)
  {
    hide RowCoupled, Supplied, Over, UpdateFlags, StatusText, RISK_COLUMNS, Repeats, Known, Stored;
    if id in t.rows {
      var extra := if f.status.None? then []
                   else [Assignment("resolved_at", if f.status.value.Acknowledged? then NullTerm else Now)];
      FlagNames(NewRisk(0, "", "", "", None, None, None, None, None, None), f);
      var fixed := Fixed(extra, now);
      assert extra != [] ==> fixed == [("resolved_at", if f.status.value.Acknowledged? then Null else Time(now))];
      WrittenRow(t.rows[id], [], UpdateFlags(f), 0, f.status, fixed);
      assert [] + Supplied(UpdateFlags(f)) == Supplied(UpdateFlags(f));
      StoredCoupled(t, Some(id), Over(t.rows[id], Supplied(UpdateFlags(f)) + fixed));
    }
  }

  // ----- whole runs

  datatype Op = Add(risk: NewRisk) | Update(id: int, flags: RiskFlags)

  function Run(t: Table, ops: seq<(int, Op)>): Table
    decreases |ops|
  {
    if ops == [] then t
    else
      var (now, op) := ops[0];
      Run(match op
          case Add(n) => AddMeaning(t, n, now).table
          case Update(id, f) => UpdateRisk(t, id, f, now).table, ops[1..])
  }

  /** In every reachable register. */
  lemma {:induction false} RunKeepsCoupled(t: Table, ops: seq<(int, Op)>)
    requires Coupled(t)
    ensures Coupled(Run(t, ops))
    decreases |ops|
  {
    if ops != [] {
      var (now, op) := ops[0];
      hide Coupled, AddMeaning, UpdateRisk;
      match op
      case Add(n) =>
        AddKeepsCoupled(t, n, now);
        RunKeepsCoupled(AddMeaning(t, n, now).table, ops[1..]);
      case Update(id, f) =>
        UpdateKeepsCoupled(t, id, f, now);
        RunKeepsCoupled(UpdateRisk(t, id, f, now).table, ops[1..]);
    }
  }

  // ----- the repository

  class Repository {
    var table: Table

    constructor (t: Table)
      ensures table == t
    {
      table := t;
    }

    // `_sql.insert`, or the hand-built INSERT with one more column and now().
    method AddRisk(n: NewRisk, now: int) returns (r: Answer)
      modifies this
      ensures r == AddMeaning(old(table), n, now) && table == r.table
    {
      var values := Collect(Required(n), AddFlags(n));
      var extra: seq<Assignment> := [];
      if n.status.Some? && n.status.value != Acknowledged {
        extra := extra + [Assignment("resolved_at", Now)];
      }
      var stmt, params := BuildInsert(values);
      if extra != [] {
        var columns := Keys(values);
        stmt := Insert(columns + ["resolved_at"], Marks(|columns|) + [Now]);
        params := Values(values);
        HandBuiltRuns(table, values, extra, now);
      }
      r := Exec(stmt, params, table, now);
      table := r.table;
    }

    method UpdateRiskRow(id: int, f: RiskFlags, now: int) returns (r: Answer)
      modifies this
      ensures r == UpdateRisk(old(table), id, f, now) && table == r.table
    {
      var values := Collect([], UpdateFlags(f));
      assert values == Supplied(UpdateFlags(f));
      var extra: seq<Assignment> := [];
      if f.status.Some? {
        if f.status.value != Acknowledged {
          extra := extra + [Assignment("resolved_at", Now)];
        } else {
          extra := extra + [Assignment("resolved_at", NullTerm)];
        }
      }
      assert extra == if f.status.None? then []
                      else [Assignment("resolved_at", if f.status.value.Acknowledged? then NullTerm else Now)];
      var stmt, params := BuildUpdate(id, values, extra);
      r := Fetched(Exec(stmt, params, table, now));
      table := r.table;
    }
  }

  // The hand-built INSERT means the insertion with resolved_at = now().
  lemma HandBuiltRuns(t: Table, values: Dict, extra: seq<Assignment>, now: int)
    requires extra == [Assignment("resolved_at", Now)]
    ensures Exec(Insert(Keys(values) + ["resolved_at"], Marks(|values|) + [Now]), Values(values), t, now)
            == InsertMeaning(t, values, extra, now)
  {
    InsertRuns(t, values, extra, now);
    assert Columns(extra) == ["resolved_at"] && Terms(extra) == [Now];
  }
}
