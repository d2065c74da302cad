/** The tables that the store writes are those that the migrations leave: same columns,
    same defaults. */
module StoreSchema {
  import opened Prelude
  import opened Schema
  import opened Migrations
  import opened RevisionSchemas
  import opened FinalSchema
  import S = Sql
  import TaskRows
  import PrRows
  import R = Risks

  lemma TaskCols()
    ensures ShapeAt(V7).Some? && Tasks in ShapeAt(V7).value.tables
    ensures ShapeAt(V7).value.tables[Tasks].cols == BaseTable(Tasks).cols[GroomRank := OPT]
  {
    hide BaseTable, ShapeAt, FinalTable;
    TasksAndPrsAtTheEnd();
  }

  lemma PrCols()
    ensures ShapeAt(V7).Some? && Prs in ShapeAt(V7).value.tables
    ensures ShapeAt(V7).value.tables[Prs].cols == BaseTable(Prs).cols[TaskId := OptFk(Tasks)][TylerNote := OPT]
  {
    hide BaseTable, ShapeAt, FinalTable;
    TasksAndPrsAtTheEnd();
  }

  lemma RiskCols()
    ensures ShapeAt(V7).Some? && Risks in ShapeAt(V7).value.tables
    ensures ShapeAt(V7).value.tables[Risks].cols == BaseTable(Risks).cols
  {
    hide BaseTable, ShapeAt, FinalTable;
    TablesAtTheEnd(Risks);
  }

  // ----- names and defaults

  // The SQL name of a column that the store writes.
  function ColName(c: Col): string {
    match c
    case Id => "id" case ProjectId => "project_id" case TaskId => "task_id" case Title => "title"
    case Spec => "spec" case Status => "status" case Blocked => "blocked" case BlockedReason => "blocked_reason"
    case Role => "role" case ModelTier => "model_tier" case PrdRef => "prd_ref" case Branch => "branch"
    case DependsOn => "depends_on" case GroomRank => "groom_rank" case CreatedAt => "created_at"
    case UpdatedAt => "updated_at" case GithubPr => "github_pr" case RiskLevel => "risk_level"
    case EmSummary => "em_summary" case TylerDecision => "tyler_decision" case DecidedAt => "decided_at"
    case TylerNote => "tyler_note" case Body => "body" case Category => "category" case Severity => "severity"
    case Mitigation => "mitigation" case DecisionId => "decision_id" case PrId => "pr_id"
    case AcknowledgedBy => "acknowledged_by" case ResolvedAt => "resolved_at"
    case _ => ""
  }

  function SqlValue(v: Value): S.Value {
    match v
    case Null => S.Null
    case Int(n) => S.Int(n)
    case Text(s) => S.Text(s)
    case Flag(b) => S.Flag(b)
    case Time(t) => S.Time(t)
    case List(items) => S.Ints(items)
  }

  // Without a default a column is NULL; the primary key draws from its sequence.
  function SqlDefault(c: Col, d: Default): S.Default {
    if c == Id then S.Serial
    else
      match d
      case NoDefault => S.Literal(S.Null)
      case Literal(v) => S.Literal(SqlValue(v))
      case NowDefault => S.NowDefault
  }

  /** These columns, under these names; `named` finds the column of a name. */
  ghost predicate Names(cols: set<Col>, names: set<string>, named: string -> Col) {
    && (forall c | c in cols :: ColName(c) in names)
    && (forall k | k in names :: named(k) in cols && ColName(named(k)) == k)
  }

  const TASK_COLS: set<Col> := {
    Id, ProjectId, Title, Spec, Status, Blocked, BlockedReason, Role, ModelTier, PrdRef, Branch, DependsOn,
    GroomRank, CreatedAt, UpdatedAt}

  function TaskCol(): string -> Col {
    k => if k == "id" then Id
         else if k == "status" then Status
         else if k == "blocked" then Blocked
         else if k == "model_tier" then ModelTier
         else if k == "depends_on" then DependsOn
         else if k == "created_at" then CreatedAt
         else if k == "updated_at" then UpdatedAt
         else PlainTaskCol(k)
  }

  // Those without a default of their own.
  function PlainTaskCol(k: string): Col {
    if k == "project_id" then ProjectId
    else if k == "title" then Title
    else if k == "spec" then Spec
    else if k == "blocked_reason" then BlockedReason
    else if k == "role" then Role
    else if k == "prd_ref" then PrdRef
    else if k == "branch" then Branch
    else GroomRank
  }

  const PR_COLS: set<Col> := {
    Id, ProjectId, GithubPr, Status, RiskLevel, EmSummary, TylerDecision, DecidedAt, TaskId, TylerNote}

  function PrCol(): string -> Col {
    k => if k == "id" then Id
         else if k == "project_id" then ProjectId
         else if k == "github_pr" then GithubPr
         else if k == "status" then Status
         else if k == "risk_level" then RiskLevel
         else if k == "em_summary" then EmSummary
         else if k == "tyler_decision" then TylerDecision
         else if k == "decided_at" then DecidedAt
         else if k == "task_id" then TaskId
         else TylerNote
  }

  const RISK_COLS: set<Col> := {
    Id, ProjectId, Title, Body, Category, Severity, Status, Mitigation, DecisionId, PrId, AcknowledgedBy,
    CreatedAt, ResolvedAt}

  function RiskCol(): string -> Col {
    k => if k == "id" then Id
         else if k == "status" then Status
         else if k == "created_at" then CreatedAt
         else if k == "project_id" then ProjectId
         else if k == "title" then Title
         else if k == "body" then Body
         else if k == "category" then Category
         else if k == "severity" then Severity
         else if k == "mitigation" then Mitigation
         else if k == "decision_id" then DecisionId
         else if k == "pr_id" then PrId
         else if k == "acknowledged_by" then AcknowledgedBy
         else ResolvedAt
  }

  lemma TaskNamed(k: string)
    requires k in TaskRows.COLUMNS
    ensures TaskCol()(k) in TASK_COLS && ColName(TaskCol()(k)) == k
  {
    hide *;
    if k in OWN_DEFAULTS {
      OwnDefaultNamed(k);
    } else {
      IsPlain(k);
      PlainTaskNamed(k);
    }
  }

  // The names whose columns have a default of their own, and the key.
  const OWN_DEFAULTS: set<string> := {
    "id", "status", "blocked", "model_tier", "depends_on", "created_at", "updated_at"}

  lemma OwnDefaultNamed(k: string)
    requires k in OWN_DEFAULTS
    ensures TaskCol()(k) in TASK_COLS && ColName(TaskCol()(k)) == k
  {
    hide PlainTaskCol;
  }

  lemma IsPlain(k: string)
    requires k !in OWN_DEFAULTS && k in TaskRows.COLUMNS
    ensures TaskCol()(k) == PlainTaskCol(k) && (PlainTaskCol(k) == GroomRank ==> k == "groom_rank")
  {
  }

  lemma PlainTaskNamed(k: string)
    requires PlainTaskCol(k) == GroomRank ==> k == "groom_rank"
    ensures PlainTaskCol(k) in TASK_COLS && ColName(PlainTaskCol(k)) == k
  {
    PlainNames();
    hide ColName;
  }

  lemma PlainNames()
    ensures ColName(ProjectId) == "project_id" && ColName(Title) == "title" && ColName(Spec) == "spec"
    ensures ColName(BlockedReason) == "blocked_reason" && ColName(Role) == "role" && ColName(PrdRef) == "prd_ref"
    ensures ColName(Branch) == "branch" && ColName(GroomRank) == "groom_rank"
  {
  }

  lemma TaskNaming(c: Col)
    requires c in TASK_COLS
    ensures ColName(c) in TaskRows.COLUMNS
  {
  }

  lemma TaskNames()
    ensures Names(TASK_COLS, TaskRows.COLUMNS, TaskCol())
  {
    hide TASK_COLS, TaskRows.COLUMNS, ColName, TaskCol;
    forall c | c in TASK_COLS ensures ColName(c) in TaskRows.COLUMNS { TaskNaming(c); }
    forall k | k in TaskRows.COLUMNS ensures TaskCol()(k) in TASK_COLS && ColName(TaskCol()(k)) == k { TaskNamed(k); }
  }

  lemma PrNamed(k: string)
    requires k in PrRows.COLUMNS
    ensures PrCol()(k) in PR_COLS && ColName(PrCol()(k)) == k
  {
  }

  lemma PrNaming(c: Col)
    requires c in PR_COLS
    ensures ColName(c) in PrRows.COLUMNS
  {
  }

  lemma PrNames()
    ensures Names(PR_COLS, PrRows.COLUMNS, PrCol())
  {
    hide PR_COLS, PrRows.COLUMNS, ColName, PrCol;
    forall c | c in PR_COLS ensures ColName(c) in PrRows.COLUMNS { PrNaming(c); }
    forall k | k in PrRows.COLUMNS ensures PrCol()(k) in PR_COLS && ColName(PrCol()(k)) == k { PrNamed(k); }
  }

  lemma RiskNamed(k: string)
    requires k in R.RISK_COLUMNS
    ensures RiskCol()(k) in RISK_COLS && ColName(RiskCol()(k)) == k
  {
  }

  lemma RiskNaming(c: Col)
    requires c in RISK_COLS
    ensures ColName(c) in R.RISK_COLUMNS
  {
  }

  lemma RiskNames()
    ensures Names(RISK_COLS, R.RISK_COLUMNS, RiskCol())
  {
    hide RISK_COLS, R.RISK_COLUMNS, ColName, RiskCol;
    forall c | c in RISK_COLS ensures ColName(c) in R.RISK_COLUMNS { RiskNaming(c); }
    forall k | k in R.RISK_COLUMNS ensures RiskCol()(k) in RISK_COLS && ColName(RiskCol()(k)) == k { RiskNamed(k); }
  }

  // The columns themselves, and those that have a default of their own.
  lemma TaskColsAre()
    ensures var cols := BaseTable(Tasks).cols[GroomRank := OPT];
            && cols.Keys == TASK_COLS
            && cols[Status].default == Literal(Text("backlog")) && cols[Blocked].default == Literal(Flag(false))
            && cols[ModelTier].default == Literal(Text("execute")) && cols[DependsOn].default == Literal(List([]))
            && cols[CreatedAt].default == NowDefault && cols[UpdatedAt].default == NowDefault
            && cols[Id].default == cols[ProjectId].default == cols[Title].default == NoDefault
            && cols[Spec].default == cols[BlockedReason].default == cols[Role].default == NoDefault
            && cols[PrdRef].default == cols[Branch].default == cols[GroomRank].default == NoDefault
  {
  }

  lemma PrColsAre()
    ensures (BaseTable(Prs).cols[TaskId := OptFk(Tasks)][TylerNote := OPT]).Keys == PR_COLS
  {
  }

  lemma RiskColsAre()
    ensures var cols := BaseTable(Risks).cols;
            && cols.Keys == RISK_COLS
            && cols[Status].default == Literal(Text("acknowledged")) && cols[CreatedAt].default == NowDefault
            && forall c | c in RISK_COLS - {Status, CreatedAt} :: cols[c].default == NoDefault
  {
  }

  // By the names that have a default of their own.
  lemma DefaultsAgree(k: string, cols: map<Col, Column>)
    requires TaskCol()(k) in cols && {Id, Status, Blocked, ModelTier, DependsOn, CreatedAt, UpdatedAt} <= cols.Keys
    requires cols[Status].default == Literal(Text("backlog")) && cols[Blocked].default == Literal(Flag(false))
    requires cols[ModelTier].default == Literal(Text("execute")) && cols[DependsOn].default == Literal(List([]))
    requires cols[CreatedAt].default == NowDefault && cols[UpdatedAt].default == NowDefault
    requires TaskCol()(k) in {ProjectId, Title, Spec, BlockedReason, Role, PrdRef, Branch, GroomRank} ==>
               cols[TaskCol()(k)].default == NoDefault
    ensures SqlDefault(TaskCol()(k), cols[TaskCol()(k)].default) == TaskRows.DefaultFor(k)
  {
  }

  lemma TaskDefault(k: string)
    requires k in TaskRows.COLUMNS
    ensures var cols := BaseTable(Tasks).cols[GroomRank := OPT];
            TaskCol()(k) in cols && SqlDefault(TaskCol()(k), cols[TaskCol()(k)].default) == TaskRows.DefaultFor(k)
  {
    hide TaskRows.COLUMNS, ColName, BaseTable, TaskCol;
    TaskColsAre();
    TaskNamed(k);
    DefaultsAgree(k, BaseTable(Tasks).cols[GroomRank := OPT]);
  }

  lemma RiskDefault(k: string)
    requires k in R.RISK_COLUMNS
    ensures var cols := BaseTable(Risks).cols;
            RiskCol()(k) in cols && SqlDefault(RiskCol()(k), cols[RiskCol()(k)].default) == R.RiskDefault(k)
  {
    RiskColsAre();
    RiskNamed(k);
    hide BaseTable, R.RISK_COLUMNS, ColName;
  }

  /** The tasks table of the store is the one that the migrations leave, column by
      column, with the same defaults. */
  lemma TaskTableIsMigrated()
    ensures ShapeAt(V7).Some? && Tasks in ShapeAt(V7).value.tables
    ensures var cols := ShapeAt(V7).value.tables[Tasks].cols;
            && Names(cols.Keys, TaskRows.COLUMNS, TaskCol())
            && forall k | k in TaskRows.COLUMNS ::
                 SqlDefault(TaskCol()(k), cols[TaskCol()(k)].default) == TaskRows.DefaultFor(k)
  {
    hide *;
    TaskCols();
    TaskColsAre();
    TaskNames();
    var cols := BaseTable(Tasks).cols[GroomRank := OPT];
    forall k | k in TaskRows.COLUMNS
      ensures TaskCol()(k) in cols && SqlDefault(TaskCol()(k), cols[TaskCol()(k)].default) == TaskRows.DefaultFor(k)
    {
      TaskDefault(k);
    }
  }

  /** So is the prs table ... */
  lemma PrTableIsMigrated()
    ensures ShapeAt(V7).Some? && Prs in ShapeAt(V7).value.tables
    ensures Names(ShapeAt(V7).value.tables[Prs].cols.Keys, PrRows.COLUMNS, PrCol())
  {
    hide *;
    PrCols();
    PrColsAre();
    PrNames();
  }

  /** ... and the risk register, defaults included. */
  lemma RiskTableIsMigrated()
    ensures ShapeAt(V7).Some? && Risks in ShapeAt(V7).value.tables
    ensures var cols := ShapeAt(V7).value.tables[Risks].cols;
            && Names(cols.Keys, R.RISK_COLUMNS, RiskCol())
            && forall k | k in R.RISK_COLUMNS ::
                 SqlDefault(RiskCol()(k), cols[RiskCol()(k)].default) == R.RiskDefault(k)
  {
    hide *;
    RiskCols();
    RiskColsAre();
    RiskNames();
    var cols := BaseTable(Risks).cols;
    forall k | k in R.RISK_COLUMNS
      ensures RiskCol()(k) in cols && SqlDefault(RiskCol()(k), cols[RiskCol()(k)].default) == R.RiskDefault(k)
    {
      RiskDefault(k);
    }
  }
}
