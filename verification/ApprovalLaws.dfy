/** What each command on pull requests, artifacts, decisions and questions stores and
    answers, column by column. */
module ApprovalLaws {
  import opened Prelude
  import opened Text
  import opened RepoRef
  import opened Approvals

  // ----- rulings

  /** Approving a PR stores the decision and its time and leaves the status alone;
      rejecting it stores the other decision and closes it as rejected. A note that is
      not given leaves the old one. Nothing else changes. */
  lemma DecidePrExact(s: State, w: World, id: int, approve: bool, note: Option<string>)
    ensures var o := Step(s, Timed(w, DecidePr(id, approve, note)));
            if id !in s.db.prs then o == Outcome(s, Err(NotFound("pr", id)))
            else
              var was := s.db.prs[id];
              var row := was.(decision := Some(if approve then "approve" else "reject"),
                              decidedAt := Some(w.now),
                              status := if approve then was.status else Rejected,
                              note := if note.Some? then note else was.note);
              o == Outcome(s.(db := s.db.(prs := s.db.prs[id := row])), Ok(Written))
  {
  }

  /** A proposed decision becomes accepted on approval and reversed on rejection. */
  lemma DecideDecisionExact(s: State, w: World, id: int, approve: bool, note: Option<string>)
    ensures var o := Step(s, Timed(w, DecideDecision(id, approve, note)));
            if id !in s.db.decisions then o == Outcome(s, Err(NotFound("decision", id)))
            else
              var was := s.db.decisions[id];
              var row := was.(status := if approve then Accepted else Reversed,
                              note := if note.Some? then note else was.note);
              o == Outcome(s.(db := s.db.(decisions := s.db.decisions[id := row])), Ok(Written))
  {
  }

  /** A verdict on an artifact stores its status and time, and notes only if given. */
  lemma ArtifactDecideExact(s: State, w: World, id: int, v: ArtifactVerdict, notes: Option<string>)
    ensures var o := Step(s, Timed(w, ArtifactDecide(id, v, notes)));
            if id !in s.db.artifacts then o == Outcome(s, Err(NotFound("artifact", id)))
            else
              var was := s.db.artifacts[id];
              var row := was.(status := match v
                                        case Approve => Approved case Reject => Refused case Supersede => Replaced,
                              decidedAt := Some(w.now),
                              notes := if notes.Some? then notes else was.notes);
              o == Outcome(s.(db := s.db.(artifacts := s.db.artifacts[id := row])), Ok(Written))
  {
  }

  /** An answer is stored as it was given, with its time. */
  lemma AnswerExact(s: State, w: World, id: int, text: string)
    ensures var o := Step(s, Timed(w, AnswerQuestion(id, text)));
            if id !in s.db.questions then o == Outcome(s, Err(NotFound("question", id)))
            else
              var row := s.db.questions[id].(answer := Some(text), answeredAt := Some(w.now));
              o == Outcome(s.(db := s.db.(questions := s.db.questions[id := row])), Ok(Written))
  {
  }

  // ----- pull requests

  /** A PR opens under the next id, undecided, as open unless another status is given; an
      unknown project or task, or a second PR of that number in the project, is a
      conflict that has drawn the id all the same. */
  lemma PrOpenExact(s: State, w: World, project: int, number: int, risk: Option<RiskLevel>,
                    summary: Option<string>, status: Option<PrStatus>, task: Option<int>)
    ensures var o := Step(s, Timed(w, PrOpen(project, number, risk, summary, status, task)));
            var id := s.prSeq + 1;
            if || project !in w.projects || (task.Some? && task.value !in w.tasks)
               || exists x | x in s.db.prs :: s.db.prs[x].project == project && s.db.prs[x].githubPr == number
            then o == Outcome(s.(prSeq := id), Err(Conflict))
            else
              var row := Pr(project, number, if status.Some? then status.value else Open, risk, summary,
                            None, None, task, None);
              o == Outcome(s.(prSeq := id, db := s.db.(prs := s.db.prs[id := row])), Ok(Written))
  {
  }

  /** `pr update`: each flag that is given goes to its own column, a decision with its
      time, and the rest stays. */
  lemma PrUpdateExact(s: State, w: World, id: int, status: Option<PrStatus>, risk: Option<RiskLevel>,
                      summary: Option<string>, decision: Option<string>, task: Option<int>)
    ensures var o := Step(s, Timed(w, PrUpdate(id, status, risk, summary, decision, task)));
            if id !in s.db.prs then o == Outcome(s, Err(NotFound("pr", id)))
            else if task.Some? && task.value !in w.tasks then o == Outcome(s, Err(Conflict))
            else
              var was := s.db.prs[id];
              var row := was.(status := if status.Some? then status.value else was.status,
                              risk := if risk.Some? then risk else was.risk,
                              summary := if summary.Some? then summary else was.summary,
                              decision := if decision.Some? then decision else was.decision,
                              decidedAt := if decision.Some? then Some(w.now) else was.decidedAt,
                              task := if task.Some? then task else was.task);
              o == Outcome(s.(db := s.db.(prs := s.db.prs[id := row])), Ok(Written))
  {
  }

  /** The merge route, guard by guard: no token, no PR, no approval, merged before, no
      project, a repo that cannot be read, no verdict, a refusal; each with its own
      answer, the last two after the call. */
  lemma MergeRefusals(s: State, w: World, id: int, reply: MergeReply)
    ensures var o := Step(s, Timed(w, MergePr(id, reply)));
            && (o.reply.Err? ==> o.state.db == s.db)
            && if !w.token then o == Outcome(s, Err(Unavailable))
               else if id !in s.db.prs then o == Outcome(s, Err(NotFound("pr", id)))
               else
                 var pr := s.db.prs[id];
                 if pr.decision != Some("approve")
                 then o == Outcome(s, Err(Validation("approve the PR before merging")))
                 else if pr.status == Merged then o == Outcome(s, Err(Validation("PR is already merged")))
                 else if pr.project !in w.projects then o == Outcome(s, Err(NotFound("project", pr.project)))
                 else
                   match ParseOwnerRepo(w.projects[pr.project])
                   case Err(e) => o == Outcome(s, Err(e))
                   case Ok(_) =>
                     && |o.state.calls| == |s.calls| + 1
                     && (reply.NoVerdict? ==> o.reply == Err(Unavailable))
                     && (reply.Verdict? && !reply.merged ==> o.reply == Err(Validation(reply.message)))
                     && (reply.Verdict? && reply.merged ==>
                           && o.reply == Ok(MergedAs(reply.sha, reply.message))
                           && o.state.db == s.db.(prs := s.db.prs[id := pr.(status := Merged)]))
  {
    hide ParseOwnerRepo;
  }

  // ----- the others

  /** A new artifact is proposed, undecided, under the next id. */
  lemma ArtifactCreateExact(s: State, w: World, project: int, task: Option<int>, kind: ArtifactType, path: string)
    ensures var o := Step(s, Timed(w, ArtifactCreate(project, task, kind, path)));
            var id := s.artifactSeq + 1;
            if project !in w.projects || (task.Some? && task.value !in w.tasks)
            then o == Outcome(s.(artifactSeq := id), Err(Conflict))
            else
              var row := Artifact(project, task, kind, path, Proposed, None, None);
              o == Outcome(s.(artifactSeq := id, db := s.db.(artifacts := s.db.artifacts[id := row])), Ok(Written))
  {
  }

  /** A new decision is accepted unless another status is given. */
  lemma DecisionAddExact(s: State, w: World, owner: Option<int>, title: string, status: Option<DecisionStatus>)
    ensures var o := Step(s, Timed(w, DecisionAdd(owner, title, status)));
            var id := s.decisionSeq + 1;
            if owner.Some? && owner.value !in w.projects then o == Outcome(s.(decisionSeq := id), Err(Conflict))
            else
              var row := Decision(owner, title, if status.Some? then status.value else Accepted, None, None);
              o == Outcome(s.(decisionSeq := id, db := s.db.(decisions := s.db.decisions[id := row])), Ok(Written))
  {
  }

  /** Superseding marks the old decision and points it at the new one; not at itself, and
      only at a decision that is there. */
  lemma SupersedeExact(s: State, w: World, id: int, newer: int)
    ensures var o := Step(s, Timed(w, DecisionSupersede(id, newer)));
            if id == newer then o == Outcome(s, Err(Validation("a decision cannot supersede itself")))
            else if newer !in s.db.decisions then o == Outcome(s, Err(NotFound("decision", newer)))
            else if id !in s.db.decisions then o == Outcome(s, Err(NotFound("decision", id)))
            else
              var row := s.db.decisions[id].(status := Superseded, supersededBy := Some(newer));
              o == Outcome(s.(db := s.db.(decisions := s.db.decisions[id := row])), Ok(Written))
  {
  }

  /** A new question is unanswered. */
  lemma QuestionAddExact(s: State, w: World, owner: Option<int>, body: string, blocking: bool)
    ensures var o := Step(s, Timed(w, QuestionAdd(owner, body, blocking)));
            var id := s.questionSeq + 1;
            if owner.Some? && owner.value !in w.projects then o == Outcome(s.(questionSeq := id), Err(Conflict))
            else
              var row := Question(owner, body, blocking, None, None);
              o == Outcome(s.(questionSeq := id, db := s.db.(questions := s.db.questions[id := row])), Ok(Written))
  {
  }

  // ----- the cards of the queue

  /** A card of the queue: a PR by its summary, or by its number where there is none; an
      artifact by its path, mockups and diagrams badged alike and all others as documents;
      a decision by its title, a question by its text. */
  lemma CardReads(db: Db, id: int)
    ensures id in db.prs ==>
              var (pr, card) := (db.prs[id], ItemOf(db, Ref(PrKind, id)));
              && card.ref == Ref(PrKind, id) && card.project == Some(pr.project) && card.badge == "pr"
              && card.title == (if pr.summary.Some? && pr.summary.value != "" then pr.summary.value
                                else "PR #" + Decimal(pr.githubPr))
              && card.risk == pr.risk && card.githubPr == Some(pr.githubPr)
              && card.artifactType == None && card.blocking == None
    ensures id in db.artifacts ==>
              var (a, card) := (db.artifacts[id], ItemOf(db, Ref(ArtifactKind, id)));
              && card.ref == Ref(ArtifactKind, id) && card.project == Some(a.project) && card.title == a.path
              && card.badge == (if a.kind.Mockup? || a.kind.Diagram? then "mockup" else "doc")
              && card.artifactType == Some(a.kind)
              && card.risk == None && card.githubPr == None && card.blocking == None
    ensures id in db.decisions ==>
              var (d, card) := (db.decisions[id], ItemOf(db, Ref(DecisionKind, id)));
              card == Item(Ref(DecisionKind, id), d.title, d.project, "decision", None, None, None, None)
    ensures id in db.questions ==>
              var (q, card) := (db.questions[id], ItemOf(db, Ref(QuestionKind, id)));
              card == Item(Ref(QuestionKind, id), q.body, q.project, "question", None, None, None, Some(true))
  {
    hide Decimal;
  }
}
