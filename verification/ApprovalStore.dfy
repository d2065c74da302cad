/** The approval tables as the routes and repositories change them in place, proved
    against the step functions of Approvals.dfy. Each of these commands writes one
    row at most, after its last check, so an error leaves nothing to roll back. */
module ApprovalStore {
  import opened Prelude
  import opened Ordering
  import opened RepoRef
  import opened Approvals

  class Store {
    var prs: map<int, Pr>
    var artifacts: map<int, Artifact>
    var decisions: map<int, Decision>
    var questions: map<int, Question>
    var prSeq: int
    var artifactSeq: int
    var decisionSeq: int
    var questionSeq: int
    var calls: seq<Call>

    constructor (s: State)
      ensures View() == s
    {
      prs, artifacts, decisions, questions := s.db.prs, s.db.artifacts, s.db.decisions, s.db.questions;
      prSeq, artifactSeq, decisionSeq, questionSeq := s.prSeq, s.artifactSeq, s.decisionSeq, s.questionSeq;
      calls := s.calls;
    }

    function View(): State reads this {
      State(Db(prs, artifacts, decisions, questions), prSeq, artifactSeq, decisionSeq, questionSeq, calls)
    }

    // The new tables and the reply are those of the step function.
    ghost predicate Delivers(o: Outcome, r: Reply) reads this {
      r == o.reply && View() == o.state
    }

    // ----- emctl/repo/prs.py

    method OpenPullRequest(w: World, op: Op) returns (r: Reply)
      requires op.PrOpen?
      modifies this
      ensures Delivers(OpenPr(old(View()), w, op), r)
    {
      prSeq := prSeq + 1;
      if op.project !in w.projects || !Refers(op.task, w.tasks) { return Err(Conflict); }
      if exists id | id in prs :: prs[id].project == op.project && prs[id].githubPr == op.githubPr {
        return Err(Conflict);
      }
      var row := Pr(op.project, op.githubPr, Open, None, None, None, None, None, None);
      if op.risk.Some? { row := row.(risk := op.risk); }
      if op.summary.Some? { row := row.(summary := op.summary); }
      if op.status.Some? { row := row.(status := op.status.value); }
      if op.task.Some? { row := row.(task := op.task); }
      prs := prs[prSeq := row];
      r := Ok(Written);
    }

    method UpdatePullRequest(w: World, id: int, status: Option<PrStatus>, risk: Option<RiskLevel>,
                             summary: Option<string>, decision: Option<string>, task: Option<int>,
                             note: Option<string>) returns (r: Reply)
      modifies this
      ensures Delivers(UpdatePr(old(View()), w, id, status, risk, summary, decision, task, note), r)
    {
      if id !in prs { return Err(NotFound("pr", id)); }
      if !Refers(task, w.tasks) { return Err(Conflict); }
      var row := prs[id];
      if status.Some? { row := row.(status := status.value); }
      if risk.Some? { row := row.(risk := risk); }
      if summary.Some? { row := row.(summary := summary); }
      if task.Some? { row := row.(task := task); }
      if note.Some? { row := row.(note := note); }
      if decision.Some? { row := row.(decision := decision, decidedAt := Some(w.now)); }
      prs := prs[id := row];
      r := Ok(Written);
    }

    // ----- command_center/routers/approvals.py

    method MergePullRequest(w: World, id: int, reply: MergeReply) returns (r: Reply)
      modifies this
      ensures Delivers(Merge(old(View()), w, id, reply), r)
    {
      if !w.token { return Err(Unavailable); }
      if id !in prs { return Err(NotFound("pr", id)); }
      var pr := prs[id];
      if pr.decision.Or("") != "approve" { return Err(Validation("approve the PR before merging")); }
      if pr.status == Merged { return Err(Validation("PR is already merged")); }
      if pr.project !in w.projects { return Err(NotFound("project", pr.project)); }
      var parsed := ParseOwnerRepo(w.projects[pr.project]);
      if parsed.Err? { return Err(parsed.error); }
      calls := calls + [Call(id, parsed.value.0, parsed.value.1, pr.githubPr, reply.Verdict? && reply.merged)];
      if reply.NoVerdict? { return Err(Unavailable); }
      if !reply.merged { return Err(Validation(reply.message)); }
      r := UpdatePullRequest(w, id, Some(Merged), None, None, None, None, None);
      r := Ok(MergedAs(reply.sha, reply.message));
    }

    method Decide(w: World, ref: Ref, approve: bool, note: Option<string>) returns (r: Reply)
      requires !ref.kind.QuestionKind?
      modifies this
      ensures ref.kind.PrKind? ==> Delivers(RuleOnPr(old(View()), w, ref.id, approve, note), r)
      ensures ref.kind.ArtifactKind? ==>
                Delivers(DecideArtifact(old(View()), w, ref.id, if approve then Approve else Reject, note), r)
      ensures ref.kind.DecisionKind? ==> Delivers(RuleOnDecision(old(View()), ref.id, approve, note), r)
      ensures r.Ok? && ref.kind.PrKind? ==>
                var was := old(prs)[ref.id];
                prs == old(prs)[ref.id := was.(
                  decision := Some(if approve then "approve" else "reject"), decidedAt := Some(w.now),
                  status := if approve then was.status else Rejected, note := if note.Some? then note else was.note)]
      ensures r.Ok? && ref.kind.ArtifactKind? ==>
                var was := old(artifacts)[ref.id];
                artifacts == old(artifacts)[ref.id := was.(
                  status := if approve then Approved else Refused, decidedAt := Some(w.now),
                  notes := if note.Some? then note else was.notes)]
      ensures r.Ok? && ref.kind.DecisionKind? ==>
                var was := old(decisions)[ref.id];
                decisions == old(decisions)[ref.id := was.(
                  status := if approve then Accepted else Reversed, note := if note.Some? then note else was.note)]
    {
      if ref.kind.PrKind? {
        if ref.id !in prs { return Err(NotFound("pr", ref.id)); }
        r := UpdatePullRequest(w, ref.id, if approve then None else Some(Rejected), None, None,
                               Some(if approve then "approve" else "reject"), None, note);
      } else if ref.kind.ArtifactKind? {
        r := RuleOnArtifact(w, ref.id, if approve then Approve else Reject, note);
      } else {
        if ref.id !in decisions { return Err(NotFound("decision", ref.id)); }
        var row := decisions[ref.id].(status := if approve then Accepted else Reversed);
        if note.Some? { row := row.(note := note); }
        decisions := decisions[ref.id := row];
        r := Ok(Written);
      }
    }

    method RuleOnArtifact(w: World, id: int, v: ArtifactVerdict, notes: Option<string>) returns (r: Reply)
      modifies this
      ensures Delivers(DecideArtifact(old(View()), w, id, v, notes), r)
    {
      if id !in artifacts { return Err(NotFound("artifact", id)); }
      var row := artifacts[id].(status := VerdictStatus(v));
      if notes.Some? { row := row.(notes := notes); }
      artifacts := artifacts[id := row.(decidedAt := Some(w.now))];
      r := Ok(Written);
    }

    method AnswerBlocking(w: World, id: int, answer: string) returns (r: Reply)
      modifies this
      ensures Delivers(Answer(old(View()), w, id, answer), r)
    {
      if id !in questions { return Err(NotFound("question", id)); }
      questions := questions[id := questions[id].(answer := Some(answer), answeredAt := Some(w.now))];
      r := Ok(Written);
    }

    // GET /api/approvals: four loops over four ordered reads.
    method ListQueue() returns (items: seq<Item>)
      ensures Renders(View().db, items, Queue(View().db))
    {
      hide Listed, Renders, Tagged, WaitingPrs, WaitingArtifacts, WaitingDecisions, WaitingQuestions;
      var db := View().db;
      WaitingAreKnown(db);
      var prItems := ItemsFor(db, PrKind, WaitingPrs(db));
      var artifactItems := ProposedItems(db);
      var decisionItems := ItemsFor(db, DecisionKind, WaitingDecisions(db));
      var questionItems := ItemsFor(db, QuestionKind, WaitingQuestions(db));
      items := prItems + artifactItems + decisionItems + questionItems;
      ghost var a, b := Tagged(PrKind, Listed(WaitingPrs(db))), Tagged(ArtifactKind, Listed(WaitingArtifacts(db)));
      ghost var c := Tagged(DecisionKind, Listed(WaitingDecisions(db)));
      RendersAppend(db, prItems, a, artifactItems, b);
      RendersAppend(db, prItems + artifactItems, a + b, decisionItems, c);
      RendersAppend(db, prItems + artifactItems + decisionItems, a + b + c, questionItems,
                    Tagged(QuestionKind, Listed(WaitingQuestions(db))));
    }
  }

  // `items` are the queue cards of `refs`, in that order.
  ghost predicate Renders(db: Db, items: seq<Item>, refs: seq<Ref>) {
    && |items| == |refs|
    && forall i | 0 <= i < |refs| :: Known(db, refs[i]) && items[i] == ItemOf(db, refs[i])
  }

  lemma RendersAppend(db: Db, a: seq<Item>, q: seq<Ref>, b: seq<Item>, r: seq<Ref>)
    requires Renders(db, a, q) && Renders(db, b, r)
    ensures Renders(db, a + b, q + r)
  {
    hide ItemOf, Known;
  }

  lemma WaitingAreKnown(db: Db)
    ensures forall id | id in WaitingPrs(db) :: Known(db, Ref(PrKind, id))
    ensures forall id | id in WaitingDecisions(db) :: Known(db, Ref(DecisionKind, id))
    ensures forall id | id in WaitingQuestions(db) :: Known(db, Ref(QuestionKind, id))
  {
  }

  // One of the queue's loops: an item for each row, in the order of the read.
  method ItemsFor(db: Db, kind: Kind, ids: set<int>) returns (items: seq<Item>)
    requires forall id | id in ids :: Known(db, Ref(kind, id))
    ensures Renders(db, items, Tagged(kind, Listed(ids)))
  {
    hide ItemOf, OrderBy;
    var rows := Listed(ids);
    items := [];
    for i := 0 to |rows|
      invariant Renders(db, items, Tagged(kind, rows[..i]))
    {
      assert rows[i] in Elements(rows);
      items := items + [ItemOf(db, Ref(kind, rows[i]))];
    }
    assert rows[..|rows|] == rows;
  }

  // The artifact read has no status filter: proposed rows are picked in the loop.
  method ProposedItems(db: Db) returns (items: seq<Item>)
    ensures Renders(db, items, Tagged(ArtifactKind, Listed(WaitingArtifacts(db))))
  {
    hide ItemOf, OrderBy;
    var rows := Listed(db.artifacts.Keys);
    ghost var kept: seq<int> := [];
    items := [];
    for i := 0 to |rows|
      invariant kept == Keep(rows[..i], WaitingArtifacts(db))
      invariant Renders(db, items, Tagged(ArtifactKind, kept))
    {
      assert rows[i] in Elements(rows);
      assert rows[..i + 1] == rows[..i] + [rows[i]];
      KeepAppend(rows[..i], rows[i], WaitingArtifacts(db));
      if db.artifacts[rows[i]].status != Proposed { continue; }
      items := items + [ItemOf(db, Ref(ArtifactKind, rows[i]))];
      assert Tagged(ArtifactKind, kept + [rows[i]]) == Tagged(ArtifactKind, kept) + [Ref(ArtifactKind, rows[i])];
      kept := kept + [rows[i]];
    }
    assert rows[..|rows|] == rows;
    KeepListed(db.artifacts.Keys, WaitingArtifacts(db));
  }

  lemma KeepListed(ids: set<int>, keep: set<int>)
    requires keep <= ids
    ensures Keep(Listed(ids), keep) == Listed(keep)
  {
    var keys := map id | id in ids :: (0, 0);
    KeepOrderBy(ids, keys, keep);
    assert ids * keep == keep;
    AgreeOrderBy(keep, keys, map id | id in keep :: (0, 0));
  }
}
