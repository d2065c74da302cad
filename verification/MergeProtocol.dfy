/** The approval and merge protocol of a pull request over whole runs. */
module MergeProtocol {
  import opened Prelude
  import opened RepoRef
  import opened Text
  import opened Approvals

  // ----- one step

  // The only states in which the merge route may talk to GitHub about a PR.
  ghost predicate Callable(s: State, w: World, id: int) {
    && w.token && id in s.db.prs
    && s.db.prs[id].decision == Some("approve") && s.db.prs[id].status != Merged
    && s.db.prs[id].project in w.projects
    && ParseOwnerRepo(w.projects[s.db.prs[id].project]).Ok?
  }

  ghost predicate IsCallFor(s: State, w: World, id: int, reply: MergeReply, c: Call)
    requires Callable(s, w, id)
  {
    var pr := s.db.prs[id];
    && c.pr == id && c.number == pr.githubPr
    && ParseOwnerRepo(w.projects[pr.project]) == Ok((c.owner, c.repo))
    && c.merged == (reply.Verdict? && reply.merged)
  }

  lemma MergeCalls(s: State, w: World, id: int, reply: MergeReply)
    ensures var s' := Merge(s, w, id, reply).state;
            if Callable(s, w, id)
            then |s'.calls| == |s.calls| + 1 && s'.calls[..|s.calls|] == s.calls
                 && IsCallFor(s, w, id, reply, s'.calls[|s.calls|])
            else s'.calls == s.calls
  {
    hide ParseOwnerRepo;
    if Callable(s, w, id) {
      var parsed := ParseOwnerRepo(w.projects[s.db.prs[id].project]);
      assert parsed == Ok((parsed.value.0, parsed.value.1));
    }
  }

  /** An outward call is made by the merge route alone, once per request, and exactly
      in a callable state: approved, not merged, with a readable repo. It names that
      repo and that PR number. */
  lemma CallsAreGuarded(s: State, t: Timed)
    ensures var s' := Step(s, t).state;
            if t.op.MergePr? && Callable(s, t.world, t.op.id)
            then |s'.calls| == |s.calls| + 1 && s'.calls[..|s.calls|] == s.calls
                 && IsCallFor(s, t.world, t.op.id, t.op.reply, s'.calls[|s.calls|])
            else s'.calls == s.calls
  {
    hide ParseOwnerRepo, Decimal;
    match t.op
    case PrOpen(_, _, _, _, _, _) =>
    case PrUpdate(_, _, _, _, _, _) =>
    case DecidePr(_, _, _) =>
    case MergePr(_, _) => MergeCalls(s, t.world, t.op.id, t.op.reply);
    case ArtifactCreate(_, _, _, _) =>
    case ArtifactDecide(_, _, _) =>
    case DecisionAdd(_, _, _) =>
    case DecisionSupersede(_, _) =>
    case DecideDecision(_, _, _) =>
    case QuestionAdd(_, _, _) =>
    case AnswerQuestion(_, _) =>
  }

  /** The merge route answers success, and writes `merged` into that row and nothing
      else, exactly when it called and the call reported a merge; otherwise every
      table is as before. */
  lemma MergeWritesIff(s: State, w: World, id: int, reply: MergeReply)
    ensures var o := Merge(s, w, id, reply);
            var done := Callable(s, w, id) && reply.Verdict? && reply.merged;
            && (o.reply.Ok? <==> done)
            && (done ==> o.reply == Ok(MergedAs(reply.sha, reply.message)))
            && o.state.db == if done
                             then s.db.(prs := s.db.prs[id := s.db.prs[id].(status := Merged)])
                             else s.db
  {
    hide ParseOwnerRepo;
  }

  // ----- what can move a PR out of `merged`, or make it approved

  predicate RejectsPr(op: Op, id: int) {
    op.DecidePr? && op.id == id && !op.approve
  }

  // The approve button, or `pr update --decision approve`.
  predicate ApprovesPr(op: Op, id: int) {
    (op.DecidePr? && op.id == id && op.approve)
    || (op.PrUpdate? && op.id == id && op.decision == Some("approve"))
  }

  // A CLI `pr update --status` to anything but merged, naming no unknown task.
  predicate ReopensPr(t: Timed, id: int) {
    && t.op.PrUpdate? && t.op.id == id && t.op.newStatus.Some? && t.op.newStatus.value != Merged
    && Refers(t.op.task, t.world.tasks)
  }

  ghost predicate IsMerged(s: State, id: int) {
    id in s.db.prs && s.db.prs[id].status == Merged && id <= s.prSeq
  }

  lemma StepKeepsMerged(s: State, t: Timed, id: int)
    requires IsMerged(s, id) && !RejectsPr(t.op, id) && !ReopensPr(t, id)
    ensures IsMerged(Step(s, t).state, id)
  {
    hide ParseOwnerRepo, Decimal;
    match t.op
    case PrOpen(_, _, _, _, _, _) =>
    case PrUpdate(_, _, _, _, _, _) =>
    case DecidePr(_, _, _) =>
    case MergePr(_, _) =>
    case ArtifactCreate(_, _, _, _) =>
    case ArtifactDecide(_, _, _) =>
    case DecisionAdd(_, _, _) =>
    case DecisionSupersede(_, _) =>
    case DecideDecision(_, _, _) =>
    case QuestionAdd(_, _, _) =>
    case AnswerQuestion(_, _) =>
  }

  // The PR is there, and not approved.
  ghost predicate IsUnapproved(s: State, id: int) {
    id in s.db.prs && s.db.prs[id].decision != Some("approve") && id <= s.prSeq
  }

  lemma RejectRejects(s: State, t: Timed, id: int)
    requires id in s.db.prs && id <= s.prSeq && RejectsPr(t.op, id)
    ensures IsUnapproved(Step(s, t).state, id)
  {
  }

  lemma StepKeepsUnapproved(s: State, t: Timed, id: int)
    requires IsUnapproved(s, id) && !ApprovesPr(t.op, id)
    ensures IsUnapproved(Step(s, t).state, id)
  {
    hide ParseOwnerRepo, Decimal;
    match t.op
    case PrOpen(_, _, _, _, _, _) =>
    case PrUpdate(_, _, _, _, _, _) =>
    case DecidePr(_, _, _) =>
    case MergePr(_, _) =>
    case ArtifactCreate(_, _, _, _) =>
    case ArtifactDecide(_, _, _) =>
    case DecisionAdd(_, _, _) =>
    case DecisionSupersede(_, _) =>
    case DecideDecision(_, _, _) =>
    case QuestionAdd(_, _, _) =>
    case AnswerQuestion(_, _) =>
  }

  // ----- runs

  // The k-th step of a run merges the PR.
  ghost predicate MergesAt(s: State, ops: seq<Timed>, k: nat, id: int) {
    && k < |ops| && ops[k].op.MergePr? && ops[k].op.id == id
    && Step(Run(s, ops[..k]), ops[k]).reply.Ok?
  }

  lemma {:induction false} RunSplits(s: State, a: seq<Timed>, b: seq<Timed>)
    ensures Run(s, a + b) == Run(Run(s, a), b)
    decreases |a|
  {
    hide Step;
    if a == [] {
      assert a + b == b;
    } else {
      assert (a + b)[1..] == a[1..] + b;
      RunSplits(Step(s, a[0]).state, a[1..], b);
    }
  }

  lemma {:induction false} LeavesMerged(s: State, ops: seq<Timed>, id: int) returns (a: nat)
    requires IsMerged(s, id) && !IsMerged(Run(s, ops), id)
    ensures a < |ops| && (RejectsPr(ops[a].op, id) || ReopensPr(ops[a], id))
    ensures IsMerged(Run(s, ops[..a]), id)
    decreases |ops|
  {
    hide Step;
    if RejectsPr(ops[0].op, id) || ReopensPr(ops[0], id) {
      a := 0;
    } else {
      StepKeepsMerged(s, ops[0], id);
      var rest := LeavesMerged(Step(s, ops[0]).state, ops[1..], id);
      a := rest + 1;
      assert ops[..a][1..] == ops[1..][..rest];
    }
  }

  lemma {:induction false} LeavesUnapproved(s: State, ops: seq<Timed>, id: int) returns (b: nat)
    requires IsUnapproved(s, id) && !IsUnapproved(Run(s, ops), id)
    ensures b < |ops| && ApprovesPr(ops[b].op, id)
    decreases |ops|
  {
    hide Step;
    if ApprovesPr(ops[0].op, id) {
      b := 0;
    } else {
      StepKeepsUnapproved(s, ops[0], id);
      var rest := LeavesUnapproved(Step(s, ops[0]).state, ops[1..], id);
      b := rest + 1;
    }
  }

  lemma MergeStep(s: State, t: Timed)
    requires t.op.MergePr? && Step(s, t).reply.Ok? && forall x | x in s.db.prs :: x <= s.prSeq
    ensures Callable(s, t.world, t.op.id) && !IsMerged(s, t.op.id)
    ensures IsMerged(Step(s, t).state, t.op.id)
  {
    hide ParseOwnerRepo, Decimal;
    MergeWritesIff(s, t.world, t.op.id, t.op.reply);
  }

  lemma MergedFrom(s: State, ops: seq<Timed>, i: nat, id: int)
    requires MergesAt(s, ops, i, id) && forall x | x in s.db.prs :: x <= s.prSeq
    ensures Callable(Run(s, ops[..i]), ops[i].world, id) && !IsMerged(Run(s, ops[..i]), id)
    ensures IsMerged(Run(s, ops[..i + 1]), id)
  {
    hide Step, Callable, IsMerged;
    RunSequenced(s, ops[..i]);
    MergeStep(Run(s, ops[..i]), ops[i]);
    assert ops[..i + 1] == ops[..i] + [ops[i]];
    RunSplits(s, ops[..i], [ops[i]]);
    RunOne(Run(s, ops[..i]), ops[i]);
  }

  // The run between two merges of one PR takes it out of `merged`.
  lemma BetweenMerges(s: State, ops: seq<Timed>, i: nat, j: nat, id: int)
    requires i < j && MergesAt(s, ops, i, id) && MergesAt(s, ops, j, id)
    requires forall x | x in s.db.prs :: x <= s.prSeq
    ensures var after := Run(s, ops[..i + 1]);
            && j < |ops| && IsMerged(after, id)
            && !IsMerged(Run(after, ops[i + 1..j]), id) && !IsUnapproved(Run(after, ops[i + 1..j]), id)
  {
    hide Step, Run, IsMerged, ParseOwnerRepo;
    MergedFrom(s, ops, i, id);
    MergedFrom(s, ops, j, id);
    assert ops[..j] == ops[..i + 1] + ops[i + 1..j];
    RunSplits(s, ops[..i + 1], ops[i + 1..j]);
  }

  // A rejection somewhere on the way to an approval.
  lemma RejectedThenApproved(s: State, ops: seq<Timed>, a: nat, id: int) returns (b: nat)
    requires a < |ops| && RejectsPr(ops[a].op, id)
    requires id in Run(s, ops[..a]).db.prs && id <= Run(s, ops[..a]).prSeq
    requires !IsUnapproved(Run(s, ops), id)
    ensures a < b < |ops| && ApprovesPr(ops[b].op, id)
  {
    hide Step, Run, IsUnapproved, RejectsPr;
    var mid := Run(s, ops[..a]);
    var rest := ops[a + 1..];
    RejectRejects(mid, ops[a], id);
    assert ops[..a + 1] == ops[..a] + [ops[a]];
    RunSplits(s, ops[..a], [ops[a]]);
    RunOne(mid, ops[a]);
    assert ops == ops[..a + 1] + rest;
    RunSplits(s, ops[..a + 1], rest);
    var b0 := LeavesUnapproved(Step(mid, ops[a]).state, rest, id);
    b := a + 1 + b0;
  }

  lemma RunOne(s: State, t: Timed)
    ensures Run(s, [t]) == Step(s, t).state
  {
    hide Step;
    assert [t][1..] == [];
  }

  lemma StepSequenced(s: State, t: Timed)
    requires forall x | x in s.db.prs :: x <= s.prSeq
    ensures forall x | x in Step(s, t).state.db.prs :: x <= Step(s, t).state.prSeq
  {
    hide ParseOwnerRepo, Decimal;
    match t.op
    case PrOpen(_, _, _, _, _, _) =>
    case PrUpdate(_, _, _, _, _, _) =>
    case DecidePr(_, _, _) =>
    case MergePr(_, _) =>
    case ArtifactCreate(_, _, _, _) =>
    case ArtifactDecide(_, _, _) =>
    case DecisionAdd(_, _, _) =>
    case DecisionSupersede(_, _) =>
    case DecideDecision(_, _, _) =>
    case QuestionAdd(_, _, _) =>
    case AnswerQuestion(_, _) =>
  }

  lemma {:induction false} RunSequenced(s: State, ops: seq<Timed>)
    requires forall x | x in s.db.prs :: x <= s.prSeq
    ensures forall x | x in Run(s, ops).db.prs :: x <= Run(s, ops).prSeq
    decreases |ops|
  {
    if ops != [] {
      hide Step;
      StepSequenced(s, ops[0]);
      RunSequenced(Step(s, ops[0]).state, ops[1..]);
    }
  }

  /** Every run, API and CLI mixed: between two successful merges of one PR somebody
      either wrote another status over `merged` with `pr update`, or rejected the PR,
      and after that somebody approved it. */
  lemma RemergeNeedsReopenOrRuling(s: State, ops: seq<Timed>, i: nat, j: nat, id: int)
    returns (a: nat, b: nat)
    requires i < j && MergesAt(s, ops, i, id) && MergesAt(s, ops, j, id)
    requires forall x | x in s.db.prs :: x <= s.prSeq
    ensures i < a < j
    ensures ReopensPr(ops[a], id) || (RejectsPr(ops[a].op, id) && a < b < j && ApprovesPr(ops[b].op, id))
  {
    hide *;
    BetweenMerges(s, ops, i, j, id);
    var after, between := Run(s, ops[..i + 1]), ops[i + 1..j];
    assert forall k | 0 <= k < |between| :: between[k] == ops[i + 1 + k];
    var a0 := LeavesMerged(after, between, id);
    a, b := i + 1 + a0, 0;
    if !ReopensPr(ops[a], id) {
      MergedIsThere(Run(after, between[..a0]), id);
      var b0 := RejectedThenApproved(after, between, a0, id);
      b := i + 1 + b0;
    }
  }

  /** So where no `pr update --status` takes that PR out of `merged` in between, there
      is a rejection and then an approval. */
  lemma RemergeNeedsRejectThenApprove(s: State, ops: seq<Timed>, i: nat, j: nat, id: int)
    returns (a: nat, b: nat)
    requires i < j && MergesAt(s, ops, i, id) && MergesAt(s, ops, j, id)
    requires forall x | x in s.db.prs :: x <= s.prSeq
    requires forall k | i < k < j && k < |ops| :: !ReopensPr(ops[k], id)
    ensures i < a < b < j < |ops| && RejectsPr(ops[a].op, id) && ApprovesPr(ops[b].op, id)
  {
    hide Step, Run, RejectsPr, ApprovesPr, ReopensPr;
    a, b := RemergeNeedsReopenOrRuling(s, ops, i, j, id);
  }

  // The API cannot do what that asks not to happen.
  lemma ApiNeverReopens(t: Timed, id: int)
    requires IsApi(t.op)
    ensures !ReopensPr(t, id)
  {
  }

  lemma MergedIsThere(s: State, id: int)
    requires IsMerged(s, id)
    ensures id in s.db.prs && id <= s.prSeq
  {
  }

  // ----- and a reopening is enough

  /** The other half, for every command that could come between: merge it, do `t`, merge
      again works both times exactly when `t` is a `pr update` that sets another status,
      names no unknown task, and leaves or writes the approval. */
  lemma RemergesIff(s: State, w: World, merge: Timed, t: Timed, id: int)
    requires Callable(s, w, id) && IsMergeOf(merge, w, id) && forall x | x in s.db.prs :: x <= s.prSeq
    ensures MergesAt(s, [merge, t, merge], 0, id)
    ensures MergesAt(s, [merge, t, merge], 2, id) <==> ReopensApproved(t, id)
  {
    var s1 := Step(s, merge).state;
    var s2 := Step(s1, t).state;
    MergeAnswersIff(s, w, id, merge);
    MergedKeepsRepo(s, w, id, merge);
    assert id <= s.prSeq && IsMerged(s1, id);
    hide *;
    ReopenIsCallable(s1, w, t, id);
    MergesIff(s, [merge, t, merge], 0, id);
    MergesIff(s, [merge, t, merge], 2, id);
    ThreeRuns(s, merge, t);
    MergeAnswersIff(s2, w, id, merge);
  }

  // A `pr update` that puts another status over `merged` and keeps the approval.
  predicate ReopensApproved(t: Timed, id: int) {
    ReopensPr(t, id) && t.op.decision.Or("approve") == "approve"
  }

  /** And every reopening at all lets a PR be merged twice without a rejection: where
      it took the approval away, approving again is enough. */
  lemma ReopenedRemerges(s: State, w: World, merge: Timed, t: Timed, approve: Timed, id: int)
    requires Callable(s, w, id) && ReopensPr(t, id)
    requires IsMergeOf(merge, w, id) && approve == Timed(w, DecidePr(id, true, None))
    ensures MergesAt(s, [merge, t, approve, merge], 0, id) && MergesAt(s, [merge, t, approve, merge], 3, id)
    ensures !RejectsPr(merge.op, id) && !RejectsPr(t.op, id) && !RejectsPr(approve.op, id)
  {
    assert !RejectsPr(merge.op, id) && !RejectsPr(t.op, id) && !RejectsPr(approve.op, id);
    assert merge.op.MergePr? && merge.op.id == id;
    hide *;
    var s1 := Step(s, merge).state;
    MergeAnswersIff(s, w, id, merge);
    MergedKeepsRepo(s, w, id, merge);
    ApprovedAgain(s1, w, t, approve, id);
    MergeAnswersIff(Step(Step(s1, t).state, approve).state, w, id, merge);
    MergesIff(s, [merge, t, approve, merge], 0, id);
    MergesIff(s, [merge, t, approve, merge], 3, id);
    FourRuns(s, merge, t, approve);
  }

  // A merge request that GitHub grants.
  predicate IsMergeOf(t: Timed, w: World, id: int) {
    t.world == w && t.op.MergePr? && t.op.id == id && t.op.reply.Verdict? && t.op.reply.merged
  }

  lemma MergedKeepsRepo(s: State, w: World, id: int, merge: Timed)
    requires Callable(s, w, id) && IsMergeOf(merge, w, id)
    ensures var s1 := Step(s, merge).state;
            && id in s1.db.prs && HasRepo(s1, w, id) && s1.db.prs[id].decision == Some("approve")
            && s1.db.prs[id].status == Merged && s1.prSeq == s.prSeq
  {
    MergeAnswers(s, w, id, merge);
    hide Step, ParseOwnerRepo;
  }

  lemma ApprovedAgain(s: State, w: World, t: Timed, approve: Timed, id: int)
    requires id in s.db.prs && HasRepo(s, w, id) && ReopensPr(t, id)
    requires approve == Timed(w, DecidePr(id, true, None))
    ensures Callable(Step(Step(s, t).state, approve).state, w, id)
  {
    hide ParseOwnerRepo, Decimal;
  }

  lemma FourRuns(s: State, t: Timed, u: Timed, v: Timed)
    ensures Run(s, [t, u, v, t][..0]) == s
    ensures Run(s, [t, u, v, t][..3]) == Step(Step(Step(s, t).state, u).state, v).state
  {
    hide Step;
    assert [t, u, v, t][..3] == [t] + ([u] + [v]);
    RunSplits(s, [t], [u] + [v]);
    RunSplits(Step(s, t).state, [u], [v]);
    RunOne(s, t);
    RunOne(Step(s, t).state, u);
    RunOne(Step(Step(s, t).state, u).state, v);
  }

  ghost predicate HasRepo(s: State, w: World, id: int)
    requires id in s.db.prs
  {
    w.token && s.db.prs[id].project in w.projects && ParseOwnerRepo(w.projects[s.db.prs[id].project]).Ok?
  }

  // A merged, approved PR can be merged after one step exactly when that reopened it.
  lemma ReopenIsCallable(s: State, w: World, t: Timed, id: int)
    requires IsMerged(s, id) && s.db.prs[id].decision == Some("approve") && HasRepo(s, w, id)
    ensures Callable(Step(s, t).state, w, id) <==> ReopensApproved(t, id)
  {
    hide ParseOwnerRepo, Decimal;
    if ReopensPr(t, id) {
    } else if RejectsPr(t.op, id) {
    } else {
      StepKeepsMerged(s, t, id);
    }
  }

  lemma MergesIff(s: State, ops: seq<Timed>, k: nat, id: int)
    requires k < |ops| && ops[k].op.MergePr? && ops[k].op.id == id
    ensures MergesAt(s, ops, k, id) <==> Step(Run(s, ops[..k]), ops[k]).reply.Ok?
  {
    hide Step;
  }

  lemma ThreeRuns(s: State, t: Timed, u: Timed)
    ensures Run(s, [t, u, t][..0]) == s
    ensures Run(s, [t, u, t][..2]) == Step(Step(s, t).state, u).state
  {
    hide Step;
    assert [t, u, t][..2] == [t] + [u];
    RunSplits(s, [t], [u]);
    RunOne(s, t);
    RunOne(Step(s, t).state, u);
  }

  lemma MergeAnswersIff(s: State, w: World, id: int, merge: Timed)
    requires IsMergeOf(merge, w, id)
    ensures Step(s, merge).reply.Ok? <==> Callable(s, w, id)
  {
    hide Callable, ParseOwnerRepo;
    MergeWritesIff(s, w, id, merge.op.reply);
  }

  lemma MergeAnswers(s: State, w: World, id: int, merge: Timed)
    requires Callable(s, w, id) && IsMergeOf(merge, w, id)
    ensures Step(s, merge).reply.Ok? && Step(s, merge).state.prSeq == s.prSeq
    ensures Step(s, merge).state.db == s.db.(prs := s.db.prs[id := s.db.prs[id].(status := Merged)])
  {
    hide Callable, ParseOwnerRepo;
    MergeWritesIff(s, w, id, merge.op.reply);
  }
}
