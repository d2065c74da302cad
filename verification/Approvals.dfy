/** Pull requests, artifacts, decisions and questions: what each API route and CLI
    command does to them (command_center/routers/approvals.py, emctl/repo/prs.py,
    artifacts.py, decisions.py, questions.py and the commands over them). */
module Approvals {
  import opened Prelude
  import opened Ordering
  import opened Text
  import opened RepoRef

  datatype PrStatus = Open | Merged | Rejected | Closed
  datatype ArtifactStatus = Proposed | Approved | Refused | Replaced
  datatype DecisionStatus = Pending | Accepted | Superseded | Reversed
  datatype RiskLevel = Low | Medium | High
  datatype ArtifactType = Mockup | Diagram | Spec | Schema | Model | EvalSet | Prompt

  datatype Pr = Pr(
    project: int, githubPr: int, status: PrStatus, risk: Option<RiskLevel>,
    summary: Option<string>, decision: Option<string>, decidedAt: Option<int>,
    task: Option<int>, note: Option<string>)

  datatype Artifact = Artifact(
    project: int, task: Option<int>, kind: ArtifactType, path: string,
    status: ArtifactStatus, decidedAt: Option<int>, notes: Option<string>)

  datatype Decision = Decision(
    project: Option<int>, title: string, status: DecisionStatus,
    supersededBy: Option<int>, note: Option<string>)

  datatype Question = Question(
    project: Option<int>, body: string, blocking: bool,
    answer: Option<string>, answeredAt: Option<int>)

  datatype Db = Db(
    prs: map<int, Pr>, artifacts: map<int, Artifact>,
    decisions: map<int, Decision>, questions: map<int, Question>)

  // One outward merge request and whether GitHub reported a merge.
  datatype Call = Call(pr: int, owner: string, repo: string, number: int, merged: bool)

  /** The tables, one id sequence per table, and the outward calls made so far
      (which no rollback can take back). */
  datatype State = State(
    db: Db, prSeq: int, artifactSeq: int, decisionSeq: int, questionSeq: int, calls: seq<Call>)

  // What GitHub answers: a verdict, or an error that is not one.
  datatype MergeReply = Verdict(merged: bool, sha: Option<string>, message: string) | NoVerdict

  // Values of ArtifactStatus that `artifact decide` accepts: never `proposed`.
  datatype ArtifactVerdict = Approve | Reject | Supersede

  datatype Op =
    | PrOpen(project: int, githubPr: int, risk: Option<RiskLevel>, summary: Option<string>,
             status: Option<PrStatus>, task: Option<int>)
    | PrUpdate(id: int, newStatus: Option<PrStatus>, risk: Option<RiskLevel>,
               summary: Option<string>, decision: Option<string>, task: Option<int>)
    | DecidePr(id: int, approve: bool, note: Option<string>)
    | MergePr(id: int, reply: MergeReply)
    | ArtifactCreate(project: int, task: Option<int>, kind: ArtifactType, path: string)
    | ArtifactDecide(id: int, verdict: ArtifactVerdict, note: Option<string>)
    | DecisionAdd(owner: Option<int>, title: string, first: Option<DecisionStatus>)
    | DecisionSupersede(id: int, newer: int)
    | DecideDecision(id: int, approve: bool, note: Option<string>)
    | QuestionAdd(owner: Option<int>, body: string, blocking: bool)
    | AnswerQuestion(id: int, answer: string)

  /** What a transaction finds around it: its now(), the repo of every project, the
      existing task ids, and whether a merge token is configured. */
  datatype World = World(now: int, projects: map<int, string>, tasks: set<int>, token: bool)

  datatype Timed = Timed(world: World, op: Op)

  // What a caller is told of a write; the merge route passes on GitHub's answer.
  datatype Receipt = Written | MergedAs(sha: Option<string>, detail: string)

  type Reply = Result<Receipt>
  datatype Outcome = Outcome(state: State, reply: Reply)

  // A reference column is null or names an existing row.
  predicate Refers(id: Option<int>, known: set<int>) {
    id.None? || id.value in known
  }

  function Fail(s: State, e: Error): Outcome {
    Outcome(s, Err(e))
  }

  function Done(s: State, db: Db): Outcome {
    Outcome(s.(db := db), Ok(Written))
  }

  // ----- prs

  function PutPr(db: Db, id: int, row: Pr): Db { db.(prs := db.prs[id := row]) }

  function OpenPr(s0: State, w: World, op: Op): Outcome
    requires op.PrOpen?
  {
    var s := s0.(prSeq := s0.prSeq + 1);
    if op.project !in w.projects || !Refers(op.task, w.tasks) then Fail(s, Conflict)
    else if exists id | id in s.db.prs ::
              s.db.prs[id].project == op.project && s.db.prs[id].githubPr == op.githubPr
    then Fail(s, Conflict)
    else
      Done(s, PutPr(s.db, s.prSeq,
        Pr(op.project, op.githubPr, op.status.Or(Open), op.risk, op.summary, None, None, op.task, None)))
  }

  function PatchedPr(row: Pr, status: Option<PrStatus>, risk: Option<RiskLevel>, summary: Option<string>,
                     decision: Option<string>, task: Option<int>, note: Option<string>, now: int): Pr
  {
    Pr(row.project, row.githubPr, status.Or(row.status), Overlay(risk, row.risk),
       Overlay(summary, row.summary), Overlay(decision, row.decision),
       if decision.Some? then Some(now) else row.decidedAt,
       Overlay(task, row.task), Overlay(note, row.note))
  }

  function UpdatePr(s: State, w: World, id: int, status: Option<PrStatus>, risk: Option<RiskLevel>,
                    summary: Option<string>, decision: Option<string>, task: Option<int>,
                    note: Option<string>): Outcome
  {
    if id !in s.db.prs then Fail(s, NotFound("pr", id))
    else if !Refers(task, w.tasks) then Fail(s, Conflict)
    else Done(s, PutPr(s.db, id, PatchedPr(s.db.prs[id], status, risk, summary, decision, task, note, w.now)))
  }

  function RuleOnPr(s: State, w: World, id: int, approve: bool, note: Option<string>): Outcome {
    UpdatePr(s, w, id, if approve then None else Some(Rejected), None, None,
             Some(if approve then "approve" else "reject"), None, note)
  }

  // Which refusal, if any, keeps the merge route from calling GitHub.
  function MergeRefusal(s: State, w: World, id: int): Option<Error> {
    if !w.token then Some(Unavailable)
    else if id !in s.db.prs then Some(NotFound("pr", id))
    else
      var pr := s.db.prs[id];
      if pr.decision.Or("") != "approve" then Some(Validation("approve the PR before merging"))
      else if pr.status == Merged then Some(Validation("PR is already merged"))
      else if pr.project !in w.projects then Some(NotFound("project", pr.project))
      else
        match ParseOwnerRepo(w.projects[pr.project])
        case Err(e) => Some(e)
        case Ok(_) => None
  }

  function Merge(s: State, w: World, id: int, reply: MergeReply): Outcome {
    var refusal := MergeRefusal(s, w, id);
    if refusal.Some? then Fail(s, refusal.value)
    else
      var pr := s.db.prs[id];
      var (owner, repo) := ParseOwnerRepo(w.projects[pr.project]).value;
      var called := s.(calls := s.calls + [Call(id, owner, repo, pr.githubPr, reply.Verdict? && reply.merged)]);
      match reply
      case NoVerdict => Fail(called, Unavailable)
      case Verdict(merged, sha, message) =>
        if !merged then Fail(called, Validation(message))
        else
          var o := UpdatePr(called, w, id, Some(Merged), None, None, None, None, None);
          o.(reply := Ok(MergedAs(sha, message)))
  }

  // ----- artifacts, decisions, questions

  function VerdictStatus(v: ArtifactVerdict): ArtifactStatus {
    match v case Approve => Approved case Reject => Refused case Supersede => Replaced
  }

  function CreateArtifact(s0: State, w: World, op: Op): Outcome
    requires op.ArtifactCreate?
  {
    var s := s0.(artifactSeq := s0.artifactSeq + 1);
    if op.project !in w.projects || !Refers(op.task, w.tasks) then Fail(s, Conflict)
    else Done(s, s.db.(artifacts := s.db.artifacts[s.artifactSeq :=
      Artifact(op.project, op.task, op.kind, op.path, Proposed, None, None)]))
  }

  function DecideArtifact(s: State, w: World, id: int, v: ArtifactVerdict, notes: Option<string>): Outcome {
    if id !in s.db.artifacts then Fail(s, NotFound("artifact", id))
    else
      var row := s.db.artifacts[id];
      Done(s, s.db.(artifacts := s.db.artifacts[id :=
        row.(status := VerdictStatus(v), decidedAt := Some(w.now), notes := Overlay(notes, row.notes))]))
  }

  function AddDecision(s0: State, w: World, op: Op): Outcome
    requires op.DecisionAdd?
  {
    var s := s0.(decisionSeq := s0.decisionSeq + 1);
    if !Refers(op.owner, w.projects.Keys) then Fail(s, Conflict)
    else Done(s, s.db.(decisions := s.db.decisions[s.decisionSeq :=
      Decision(op.owner, op.title, op.first.Or(Accepted), None, None)]))
  }

  function SupersedeDecision(s: State, id: int, newer: int): Outcome {
    if id == newer then Fail(s, Validation("a decision cannot supersede itself"))
    else if newer !in s.db.decisions then Fail(s, NotFound("decision", newer))
    else if id !in s.db.decisions then Fail(s, NotFound("decision", id))
    else Done(s, s.db.(decisions := s.db.decisions[id :=
      s.db.decisions[id].(status := Superseded, supersededBy := Some(newer))]))
  }

  function RuleOnDecision(s: State, id: int, approve: bool, note: Option<string>): Outcome {
    if id !in s.db.decisions then Fail(s, NotFound("decision", id))
    else
      var row := s.db.decisions[id];
      Done(s, s.db.(decisions := s.db.decisions[id :=
        row.(status := if approve then Accepted else Reversed, note := Overlay(note, row.note))]))
  }

  function AddQuestion(s0: State, w: World, op: Op): Outcome
    requires op.QuestionAdd?
  {
    var s := s0.(questionSeq := s0.questionSeq + 1);
    if !Refers(op.owner, w.projects.Keys) then Fail(s, Conflict)
    else Done(s, s.db.(questions := s.db.questions[s.questionSeq :=
      Question(op.owner, op.body, op.blocking, None, None)]))
  }

  function Answer(s: State, w: World, id: int, answer: string): Outcome {
    if id !in s.db.questions then Fail(s, NotFound("question", id))
    else Done(s, s.db.(questions := s.db.questions[id :=
      s.db.questions[id].(answer := Some(answer), answeredAt := Some(w.now))]))
  }

  // ----- one transaction, and runs of them

  function Step(s: State, t: Timed): Outcome {
    var w := t.world;
    match t.op
    case PrOpen(_, _, _, _, _, _) => OpenPr(s, w, t.op)
    case PrUpdate(id, status, risk, summary, decision, task) =>
      UpdatePr(s, w, id, status, risk, summary, decision, task, None)
    case DecidePr(id, approve, note) => RuleOnPr(s, w, id, approve, note)
    case MergePr(id, reply) => Merge(s, w, id, reply)
    case ArtifactCreate(_, _, _, _) => CreateArtifact(s, w, t.op)
    case ArtifactDecide(id, v, notes) => DecideArtifact(s, w, id, v, notes)
    case DecisionAdd(_, _, _) => AddDecision(s, w, t.op)
    case DecisionSupersede(id, newer) => SupersedeDecision(s, id, newer)
    case DecideDecision(id, approve, note) => RuleOnDecision(s, id, approve, note)
    case QuestionAdd(_, _, _) => AddQuestion(s, w, t.op)
    case AnswerQuestion(id, answer) => Answer(s, w, id, answer)
  }

  function Run(s: State, ops: seq<Timed>): State
    decreases |ops|
  {
    if ops == [] then s else Run(Step(s, ops[0]).state, ops[1..])
  }

  // The writes the HTTP API offers; the rest is the CLI's.
  predicate IsApi(op: Op) {
    match op
    case DecidePr(_, _, _) | MergePr(_, _) | DecideDecision(_, _, _) | AnswerQuestion(_, _) => true
    case ArtifactDecide(_, v, _) => !v.Supersede?
    case _ => false
  }

  // ----- the queue

  datatype Kind = PrKind | ArtifactKind | DecisionKind | QuestionKind
  datatype Ref = Ref(kind: Kind, id: int)

  datatype Item = Item(
    ref: Ref, title: string, project: Option<int>, badge: string, risk: Option<RiskLevel>,
    artifactType: Option<ArtifactType>, githubPr: Option<int>, blocking: Option<bool>)

  function WaitingPrs(db: Db): set<int> {
    set id | id in db.prs && db.prs[id].status == Open && db.prs[id].decision.None?
  }

  function WaitingArtifacts(db: Db): set<int> {
    set id | id in db.artifacts && db.artifacts[id].status == Proposed
  }

  function WaitingDecisions(db: Db): set<int> {
    set id | id in db.decisions && db.decisions[id].status == Pending
  }

  function WaitingQuestions(db: Db): set<int> {
    set id | id in db.questions && db.questions[id].blocking && db.questions[id].answer.None?
  }

  // ORDER BY id
  function Listed(ids: set<int>): (s: seq<int>)
    ensures Elements(s) == ids
  {
    OrderBy(ids, map id | id in ids :: (0, 0))
  }

  function Tagged(kind: Kind, ids: seq<int>): seq<Ref> {
    seq(|ids|, i requires 0 <= i < |ids| => Ref(kind, ids[i]))
  }

  // What waits for a call, in the order in which the queue shows it.
  function Queue(db: Db): seq<Ref> {
    Tagged(PrKind, Listed(WaitingPrs(db))) + Tagged(ArtifactKind, Listed(WaitingArtifacts(db)))
    + Tagged(DecisionKind, Listed(WaitingDecisions(db))) + Tagged(QuestionKind, Listed(WaitingQuestions(db)))
  }

  function Badge(t: ArtifactType): string {
    match t case Mockup | Diagram => "mockup" case _ => "doc"
  }

  // The row behind a reference exists.
  ghost predicate Known(db: Db, r: Ref) {
    match r.kind
    case PrKind => r.id in db.prs
    case ArtifactKind => r.id in db.artifacts
    case DecisionKind => r.id in db.decisions
    case QuestionKind => r.id in db.questions
  }

  function ItemOf(db: Db, r: Ref): Item
    requires Known(db, r)
  {
    match r.kind
    case PrKind =>
      var pr := db.prs[r.id];
      var title := if pr.summary.Or("") != "" then pr.summary.value else "PR #" + Decimal(pr.githubPr);
      Item(r, title, Some(pr.project), "pr", pr.risk, None, Some(pr.githubPr), None)
    case ArtifactKind =>
      var a := db.artifacts[r.id];
      Item(r, a.path, Some(a.project), Badge(a.kind), None, Some(a.kind), None, None)
    case DecisionKind =>
      var d := db.decisions[r.id];
      Item(r, d.title, d.project, "decision", None, None, None, None)
    case QuestionKind =>
      var q := db.questions[r.id];
      Item(r, q.body, q.project, "question", None, None, None, Some(true))
  }
}
