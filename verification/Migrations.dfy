/** The revisions of emctl/migrations/versions: 0001, then 0003 to 0007 (0002 only
    manages a role and leaves the schema alone). Every upgrade of arbitrary valid
    contents succeeds and is undone exactly by its downgrade; every downgrade
    succeeds from any valid database of its revision. */
module Migrations {
  import opened Prelude
  import opened Schema
  import opened SchemaLaws

  datatype Rev = Base | V1 | V3 | V4 | V5 | V6 | V7

  function Prev(r: Rev): Rev {
    match r
    case Base => Base case V1 => Base case V3 => V1 case V4 => V3
    case V5 => V4 case V6 => V5 case V7 => V6
  }

  // ----- column shorthands

  const OPT := Column(true, NoDefault, None)
  const REQ := Column(false, NoDefault, None)
  const STAMP := Column(false, NowDefault, None)

  function Def(v: Value): Column { Column(false, Literal(v), None) }
  function Fk(t: Tbl): Column { Column(false, NoDefault, Some(t)) }
  function OptFk(t: Tbl): Column { Column(true, NoDefault, Some(t)) }

  // ----- 0001

  // Table `t` as 0001 creates it.
  function BaseTable(t: Tbl): Table {
    match t
    case Projects => Table(
      map[Id := REQ, Name := REQ, Repo := REQ, Status := Def(Text("active")), Brief := OPT, CreatedAt := STAMP],
      map[Status := OneOf({"active", "paused", "done", "archived"})], {{Name}}, map[])
    case Tasks => Table(
      map[Id := REQ, ProjectId := Fk(Projects), Title := REQ, Spec := OPT, Status := Def(Text("backlog")),
          Blocked := Def(Flag(false)), BlockedReason := OPT, Role := OPT, ModelTier := Def(Text("execute")),
          PrdRef := OPT, Branch := OPT, DependsOn := Def(List([])), CreatedAt := STAMP, UpdatedAt := STAMP],
      map[Status := OneOf({"backlog", "planned", "in_progress", "in_review", "awaiting_tyler", "done"}),
          ModelTier := OneOf({"plan", "execute", "local"})], {}, map[])
    case Runs => Table(
      map[Id := REQ, TaskId := OptFk(Tasks), Role := REQ, Model := REQ, Mode := REQ, StartedAt := STAMP,
          EndedAt := OPT, Outcome := OPT, TokenCost := OPT, CostUsd := OPT, LogRef := OPT],
      map[Mode := OneOf({"team", "subagent", "headless", "interactive"}),
          Outcome := OneOf({"done", "negative-result", "blocked", "failed"})], {}, map[])
    case Prs => Table(
      map[Id := REQ, ProjectId := Fk(Projects), GithubPr := REQ, Status := Def(Text("open")), RiskLevel := OPT,
          EmSummary := OPT, TylerDecision := OPT, DecidedAt := OPT],
      map[Status := OneOf({"open", "merged", "rejected", "closed"}), RiskLevel := OneOf({"low", "medium", "high"})],
      {{ProjectId, GithubPr}}, map[])
    case Reviews => Table(
      map[Id := REQ, PrId := Fk(Prs), Role := REQ, Model := OPT, Verdict := REQ, Findings := Def(Text("[]")),
          StrongestObjection := REQ, CreatedAt := STAMP],
      map[Verdict := OneOf({"approve", "concerns", "block"})], {}, map[])
    case Questions => Table(
      map[Id := REQ, ProjectId := OptFk(Projects), Body := REQ, Blocking := Def(Flag(false)), Answer := OPT,
          AnsweredAt := OPT, CreatedAt := STAMP], map[], {}, map[])
    case Decisions => Table(
      map[Id := REQ, ProjectId := OptFk(Projects), Title := REQ, Context := OPT, DecisionText := REQ,
          CreatedAt := STAMP], map[], {}, map[])
    case Artifacts => Table(
      map[Id := REQ, ProjectId := Fk(Projects), TaskId := OptFk(Tasks), Kind := REQ, Path := REQ,
          Status := Def(Text("proposed")), DecidedAt := OPT, NotesText := OPT],
      map[Kind := OneOf({"mockup", "diagram", "spec", "schema", "model", "eval-set", "prompt"}),
          Status := OneOf({"proposed", "approved", "rejected", "superseded"})], {}, map[])
    case Learnings => Table(
      map[Id := REQ, Category := REQ, Observation := REQ, Evidence := OPT, FiledBy := OPT,
          Status := Def(Text("open")), RetroId := OPT, CreatedAt := STAMP],
      map[Category := OneOf({"start", "stop", "keep", "question"}),
          Status := OneOf({"open", "resolved", "escalated"})], {}, map[])
    case Debt => Table(
      map[Id := REQ, ProjectId := OptFk(Projects), Location := REQ, Kind := REQ, Severity := REQ, Evidence := REQ,
          FiledBy := OPT, Recurrence := Def(Int(1)), PassesSurvived := Def(Int(0)), Status := Def(Text("open")),
          ResolvedRef := OPT, CreatedAt := STAMP],
      map[Kind := OneOf({"duplication", "coupling", "missing-tests", "pattern-drift", "dead-code", "docs", "other"}),
          Severity := OneOf({"high", "medium", "low"}),
          Status := OneOf({"open", "proposed", "resolved", "stale", "escalated"})], {}, map[])
    case Metrics => Table(
      map[Id := REQ, Name := REQ, Definition := REQ, Rationale := REQ, Status := Def(Text("active")),
          CreatedAt := STAMP],
      map[Status := OneOf({"proposed", "active", "retired"})], {{Name}}, map[])
    case Retros => Table(
      map[Id := REQ, Trigger := REQ, DocPath := OPT, OpenedAt := STAMP, ClosedAt := OPT], map[], {}, map[])
    // later revisions
    case Risks => Table(
      map[Id := REQ, ProjectId := Fk(Projects), Title := REQ, Body := OPT, Category := REQ, Severity := REQ,
          Status := Def(Text("acknowledged")), Mitigation := OPT, DecisionId := OptFk(Decisions),
          PrId := OptFk(Prs), AcknowledgedBy := OPT, CreatedAt := STAMP, ResolvedAt := OPT],
      map[Category := OneOf({"security", "architecture", "operational", "cost", "dependency", "product"}),
          Severity := OneOf({"high", "medium", "low"}),
          Status := OneOf({"acknowledged", "mitigated", "accepted", "realized", "closed"})], {}, map[])
    case TaskEvents => Table(
      map[Id := REQ, TaskId := Fk(Tasks), FromStatus := OPT, ToStatus := REQ, Actor := OPT, At := STAMP],
      map[], {}, map[])
    case Notes => Table(
      map[Id := REQ, Body := REQ, Author := OPT, Context := OPT, CreatedAt := STAMP], map[], {}, map[])
  }

  function Create(t: Tbl): Op {
    CreateTable(t, BaseTable(t).cols, BaseTable(t).checks, BaseTable(t).uniques)
  }

  const V1_TABLES := [
    Projects, Tasks, Runs, Prs, Reviews, Questions, Decisions, Artifacts, Learnings, Debt, Metrics, Retros]

  const V1_INDEXES := [
    CreateIndex(TasksStatus, IndexDef(Tasks, Status)), CreateIndex(RunsTask, IndexDef(Runs, TaskId)),
    CreateIndex(ReviewsPr, IndexDef(Reviews, PrId)), CreateIndex(DebtOpen, IndexDef(Debt, Status)),
    CreateIndex(LearningsOpen, IndexDef(Learnings, Status))]

  const V1_INDEX_DROPS := [
    DropIndex(LearningsOpen), DropIndex(DebtOpen), DropIndex(ReviewsPr), DropIndex(RunsTask), DropIndex(TasksStatus)]

  const V1_DROP_ORDER := [
    Retros, Metrics, Debt, Learnings, Artifacts, Decisions, Questions, Reviews, Prs, Runs, Tasks, Projects]

  function CreateAll(ts: seq<Tbl>): (ops: seq<Op>)
    ensures |ops| == |ts| && forall i | 0 <= i < |ts| :: ops[i] == Create(ts[i])
  {
    if ts == [] then [] else [Create(ts[0])] + CreateAll(ts[1..])
  }

  function DropAll(ts: seq<Tbl>): (ops: seq<Op>)
    ensures |ops| == |ts| && forall i | 0 <= i < |ts| :: ops[i] == DropTable(ts[i])
  {
    if ts == [] then [] else [DropTable(ts[0])] + DropAll(ts[1..])
  }

  // ----- 0003

  const V3_ALTER := [
    AddColumn(Decisions, Status, Def(Text("accepted"))),
    AddColumn(Decisions, Significance, Def(Text("major"))),
    AddColumn(Decisions, SupersededBy, OptFk(Decisions)),
    AddCheck(Decisions, Status, OneOf({"proposed", "accepted", "superseded", "reversed"})),
    AddCheck(Decisions, Significance, OneOf({"major", "minor"})),
    AddColumn(Prs, TaskId, OptFk(Tasks))]

  const V3_CREATE := [
    Create(Risks), Create(TaskEvents),
    CreateIndex(RisksOpen, IndexDef(Risks, Status)), CreateIndex(TaskEventsTask, IndexDef(TaskEvents, TaskId))]

  const V3_DROPS := [
    DropIndex(TaskEventsTask), DropIndex(RisksOpen), DropTable(Risks), DropTable(TaskEvents)]

  const V3_RESTORE := [
    DropColumn(Prs, TaskId), DropCheck(Decisions, Significance), DropCheck(Decisions, Status),
    DropColumn(Decisions, SupersededBy), DropColumn(Decisions, Significance), DropColumn(Decisions, Status)]

  // ----- 0004 to 0007

  const V4_UP := [
    AddColumn(Runs, InputTokens, OPT), AddCheck(Runs, InputTokens, NonNegative),
    AddColumn(Runs, OutputTokens, OPT), AddCheck(Runs, OutputTokens, NonNegative),
    AddColumn(Runs, CacheReadTokens, OPT), AddCheck(Runs, CacheReadTokens, NonNegative),
    AddColumn(Runs, CacheWriteTokens, OPT), AddCheck(Runs, CacheWriteTokens, NonNegative)]

  const V4_DOWN := [
    DropCheck(Runs, CacheWriteTokens), DropColumn(Runs, CacheWriteTokens),
    DropCheck(Runs, CacheReadTokens), DropColumn(Runs, CacheReadTokens),
    DropCheck(Runs, OutputTokens), DropColumn(Runs, OutputTokens),
    DropCheck(Runs, InputTokens), DropColumn(Runs, InputTokens)]

  const V5_UP := [AddColumn(Tasks, GroomRank, OPT)]
  const V5_DOWN := [DropColumn(Tasks, GroomRank)]

  const V6_UP := [Create(Notes), CreateIndex(NotesCreatedAt, IndexDef(Notes, CreatedAt))]
  const V6_DOWN := [DropIndex(NotesCreatedAt), DropTable(Notes)]

  const V7_UP := [AddColumn(Prs, TylerNote, OPT), AddColumn(Decisions, TylerNote, OPT)]
  const V7_DOWN := [DropColumn(Decisions, TylerNote), DropColumn(Prs, TylerNote)]

  // The additions of an upgrade; 0003 then runs its backfill over them.
  function Additions(r: Rev): seq<Op> {
    match r
    case Base => []
    case V1 => CreateAll(V1_TABLES) + V1_INDEXES
    case V3 => V3_ALTER + V3_CREATE
    case V4 => V4_UP
    case V5 => V5_UP
    case V6 => V6_UP
    case V7 => V7_UP
  }

  // `order` is the order in which the backfill's SELECT visits the tasks.
  function Upgrade(r: Rev, order: seq<int>, now: int): seq<Op> {
    Additions(r) + if r == V3 then [Backfill(order, now)] else []
  }

  function Downgrade(r: Rev): seq<Op> {
    match r
    case Base => []
    case V1 => V1_INDEX_DROPS + DropAll(V1_DROP_ORDER)
    case V3 => V3_DROPS + V3_RESTORE
    case V4 => V4_DOWN
    case V5 => V5_DOWN
    case V6 => V6_DOWN
    case V7 => V7_DOWN
  }

  // ----- the downgrades are the additions undone

  lemma {:induction false} UndoAllIs(ops: seq<Op>)
    requires forall op | op in ops :: Constructive(op)
    ensures |UndoAll(ops)| == |ops|
    ensures forall k | 0 <= k < |ops| :: UndoAll(ops)[k] == Undo(ops[|ops| - 1 - k])
  {
    if ops != [] {
      UndoAllIs(ops[1..]);
      var rest := UndoAll(ops[1..]);
      forall k | 0 <= k < |ops| ensures UndoAll(ops)[k] == Undo(ops[|ops| - 1 - k]) {
        if k < |rest| { assert rest[k] == Undo(ops[1..][|ops| - 2 - k]); }
      }
    }
  }

  lemma UndoCreateIs(t: Tbl)
    ensures Constructive(Create(t)) && Undo(Create(t)) == DropTable(t)
  {
    hide BaseTable;
  }

  lemma {:induction false} UndoAllAppend(a: seq<Op>, b: seq<Op>)
    requires (forall op | op in a :: Constructive(op)) && (forall op | op in b :: Constructive(op))
    ensures forall op | op in a + b :: Constructive(op)
    ensures UndoAll(a + b) == UndoAll(b) + UndoAll(a)
  {
    hide Constructive, Undo;
    if a == [] {
      assert a + b == b;
    } else {
      assert (a + b)[1..] == a[1..] + b;
      UndoAllAppend(a[1..], b);
    }
  }

  lemma CreatesUndone()
    ensures forall op | op in CreateAll(V1_TABLES) :: Constructive(op)
    ensures UndoAll(CreateAll(V1_TABLES)) == DropAll(V1_DROP_ORDER)
  {
    hide BaseTable, Create, CreateAll, DropAll, Undo, Constructive;
    var ops := CreateAll(V1_TABLES);
    forall k | 0 <= k < 12 ensures Constructive(ops[k]) && Undo(ops[k]) == DropTable(V1_TABLES[k]) {
      UndoCreateIs(V1_TABLES[k]);
    }
    UndoAllIs(ops);
    DropOrderReverses();
  }

  lemma DropOrderReverses()
    ensures forall k | 0 <= k < 12 :: V1_DROP_ORDER[k] == V1_TABLES[11 - k]
  {
    var a, b := V1_DROP_ORDER, V1_TABLES;
    assert a[0] == b[11] && a[1] == b[10] && a[2] == b[9] && a[3] == b[8] && a[4] == b[7] && a[5] == b[6];
    assert a[6] == b[5] && a[7] == b[4] && a[8] == b[3] && a[9] == b[2] && a[10] == b[1] && a[11] == b[0];
  }

  lemma IndexesUndone()
    ensures forall op | op in V1_INDEXES :: Constructive(op)
    ensures UndoAll(V1_INDEXES) == V1_INDEX_DROPS
  {
    UndoAllIs(V1_INDEXES);
  }

  lemma V4Undone()
    ensures forall op | op in V4_UP :: Constructive(op)
    ensures UndoAll(V4_UP) == V4_DOWN
  {
    UndoAllIs(V4_UP);
  }

  lemma LaterUndone()
    ensures (forall op | op in V5_UP :: Constructive(op)) && UndoAll(V5_UP) == V5_DOWN
    ensures (forall op | op in V6_UP :: Constructive(op)) && UndoAll(V6_UP) == V6_DOWN
    ensures (forall op | op in V7_UP :: Constructive(op)) && UndoAll(V7_UP) == V7_DOWN
  {
    hide BaseTable, Create;
    UndoCreateIs(Notes);
    UndoAllIs(V5_UP);
    UndoAllIs(V6_UP);
    UndoAllIs(V7_UP);
  }

  // Every downgrade but 0003's is its additions undone, last first.
  lemma DowngradeUndoes(r: Rev)
    requires r != V3
    ensures forall op | op in Additions(r) :: Constructive(op)
    ensures Downgrade(r) == UndoAll(Additions(r))
  {
    hide BaseTable, Create, CreateAll, DropAll, Constructive, Undo;
    CreatesUndone();
    IndexesUndone();
    UndoAllAppend(CreateAll(V1_TABLES), V1_INDEXES);
    V4Undone();
    LaterUndone();
    hide V1_TABLES, V1_INDEXES, V1_INDEX_DROPS, V1_DROP_ORDER;
    hide V4_UP, V4_DOWN, V5_UP, V5_DOWN, V6_UP, V6_DOWN, V7_UP, V7_DOWN;
  }

  lemma AlterUndone()
    ensures forall op | op in V3_ALTER :: Constructive(op)
    ensures forall op | op in V3_CREATE :: Constructive(op)
    ensures V3_RESTORE == UndoAll(V3_ALTER)
  {
    UndoAllIs(V3_ALTER);
  }
}
