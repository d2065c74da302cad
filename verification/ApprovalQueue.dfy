/** What every step does to the approval queue, and the columns that agree in every
    reachable state. */
module ApprovalQueue {
  import opened Prelude
  import opened Ordering
  import opened Approvals
  import opened RepoRef
  import opened Text

  // ----- what the queue lists

  ghost predicate Waiting(db: Db, r: Ref) {
    match r.kind
    case PrKind => r.id in WaitingPrs(db)
    case ArtifactKind => r.id in WaitingArtifacts(db)
    case DecisionKind => r.id in WaitingDecisions(db)
    case QuestionKind => r.id in WaitingQuestions(db)
  }

  function KindRank(k: Kind): int {
    match k case PrKind => 0 case ArtifactKind => 1 case DecisionKind => 2 case QuestionKind => 3
  }

  ghost predicate Earlier(a: Ref, b: Ref) {
    KindRank(a.kind) < KindRank(b.kind) || (a.kind == b.kind && a.id < b.id)
  }

  lemma TaggedLists(kind: Kind, ids: set<int>)
    ensures forall r | r in Tagged(kind, Listed(ids)) :: r.kind == kind && r.id in ids
    ensures forall id | id in ids :: Ref(kind, id) in Tagged(kind, Listed(ids))
    ensures var t := Tagged(kind, Listed(ids));
            forall i, j | 0 <= i < j < |t| :: Earlier(t[i], t[j])
  {
    var s := Listed(ids);
    var t := Tagged(kind, s);
    forall i | 0 <= i < |t| ensures t[i].kind == kind && t[i].id in ids {
      assert s[i] in Elements(s);
    }
    forall id | id in ids ensures Ref(kind, id) in t {
      assert id in Elements(s);
      var i :| 0 <= i < |s| && s[i] == id;
      assert t[i] == Ref(kind, id);
    }
    var keys := map id | id in ids :: (0, 0);
    forall i, j | 0 <= i < j < |t| ensures Earlier(t[i], t[j]) {
      assert Before(keys, s[i], s[j]);
    }
  }

  ghost predicate InOrder(q: seq<Ref>) {
    forall i, j | 0 <= i < j < |q| :: Earlier(q[i], q[j])
  }

  lemma ConcatInOrder(a: seq<Ref>, b: seq<Ref>, top: int)
    requires InOrder(a) && InOrder(b)
    requires (forall r | r in a :: KindRank(r.kind) < top) && (forall r | r in b :: KindRank(r.kind) >= top)
    ensures InOrder(a + b) && forall r :: r in a + b <==> r in a || r in b
  {
    forall i, j | 0 <= i < j < |a + b| ensures Earlier((a + b)[i], (a + b)[j]) {
      if i < |a| && j >= |a| {
        assert a[i] in a && b[j - |a|] in b;
      }
    }
  }

  /** The queue shows exactly what waits for a call, each item once: PRs, artifacts,
      decisions, blocking questions, and by id within each. */
  lemma QueueShows(db: Db)
    ensures forall r :: r in Queue(db) <==>
              match r.kind
              case PrKind => r.id in db.prs && db.prs[r.id].status == Open && db.prs[r.id].decision == None
              case ArtifactKind => r.id in db.artifacts && db.artifacts[r.id].status == Proposed
              case DecisionKind => r.id in db.decisions && db.decisions[r.id].status == Pending
              case QuestionKind =>
                r.id in db.questions && db.questions[r.id].blocking && db.questions[r.id].answer == None
    ensures var q := Queue(db);
            forall i, j | 0 <= i < j < |q| ::
              && (q[i].kind == q[j].kind ==> q[i].id < q[j].id)
              && (q[j].kind.PrKind? ==> q[i].kind.PrKind?)
              && (q[j].kind.ArtifactKind? ==> q[i].kind.PrKind? || q[i].kind.ArtifactKind?)
              && (q[j].kind.DecisionKind? ==> !q[i].kind.QuestionKind?)
  {
    QueueIsExact(db);
    hide Queue;
    var q := Queue(db);
    forall i, j | 0 <= i < j < |q|
      ensures q[i].kind == q[j].kind ==> q[i].id < q[j].id
      ensures q[j].kind.PrKind? ==> q[i].kind.PrKind?
      ensures q[j].kind.ArtifactKind? ==> q[i].kind.PrKind? || q[i].kind.ArtifactKind?
      ensures q[j].kind.DecisionKind? ==> !q[i].kind.QuestionKind?
    {
      assert Earlier(q[i], q[j]);
    }
  }

  // The same in terms of what waits.
  lemma QueueIsExact(db: Db)
    ensures forall r :: r in Queue(db) <==> Waiting(db, r)
    ensures InOrder(Queue(db))
  {
    TaggedLists(PrKind, WaitingPrs(db));
    TaggedLists(ArtifactKind, WaitingArtifacts(db));
    TaggedLists(DecisionKind, WaitingDecisions(db));
    TaggedLists(QuestionKind, WaitingQuestions(db));
    var a, b := Tagged(PrKind, Listed(WaitingPrs(db))), Tagged(ArtifactKind, Listed(WaitingArtifacts(db)));
    var c, d := Tagged(DecisionKind, Listed(WaitingDecisions(db))), Tagged(QuestionKind, Listed(WaitingQuestions(db)));
    hide Tagged, Listed, WaitingPrs, WaitingArtifacts, WaitingDecisions, WaitingQuestions;
    ConcatInOrder(a, b, 1);
    ConcatInOrder(a + b, c, 2);
    ConcatInOrder(a + b + c, d, 3);
    forall r ensures r in Queue(db) <==> Waiting(db, r) {
      assert r == Ref(r.kind, r.id);
    }
  }

  // An ordered queue is determined by what it contains.
  lemma {:induction false} OrderedUnique(a: seq<Ref>, b: seq<Ref>)
    requires InOrder(a) && InOrder(b) && Elements(a) == Elements(b)
    ensures a == b
  {
    ElementsEmpty(a);
    ElementsEmpty(b);
    if a != [] {
      assert a[0] in Elements(b) && b[0] in Elements(a);
      assert a[0] == b[0];
      OrderedTail(a);
      OrderedTail(b);
      OrderedUnique(a[1..], b[1..]);
    }
  }

  lemma OrderedTail(a: seq<Ref>)
    requires InOrder(a) && a != []
    ensures InOrder(a[1..]) && Elements(a[1..]) == Elements(a) - {a[0]}
  {
    forall x | x in Elements(a) - {a[0]} ensures x in a[1..] {
      var i :| 0 <= i < |a| && a[i] == x;
      assert a[1..][i - 1] == x;
    }
  }

  lemma {:induction false} WithoutInOrder(q: seq<Ref>, drop: set<Ref>)
    requires InOrder(q)
    ensures InOrder(Without(q, drop))
  {
    if q != [] {
      OrderedTail(q);
      WithoutInOrder(q[1..], drop);
      var rest := Without(q[1..], drop);
      forall i | 0 <= i < |rest| ensures Earlier(q[0], rest[i]) {
        assert rest[i] in Elements(rest);
        var j :| 0 <= j < |q[1..]| && q[1..][j] == rest[i];
        assert q[j + 1] == rest[i];
      }
    }
  }

  // ----- one step touches one item

  // The row a step writes, if it succeeds.
  function Target(s: State, op: Op): Ref {
    match op
    case PrOpen(_, _, _, _, _, _) => Ref(PrKind, s.prSeq + 1)
    case PrUpdate(id, _, _, _, _, _) => Ref(PrKind, id)
    case DecidePr(id, _, _) => Ref(PrKind, id)
    case MergePr(id, _) => Ref(PrKind, id)
    case ArtifactCreate(_, _, _, _) => Ref(ArtifactKind, s.artifactSeq + 1)
    case ArtifactDecide(id, _, _) => Ref(ArtifactKind, id)
    case DecisionAdd(_, _, _) => Ref(DecisionKind, s.decisionSeq + 1)
    case DecisionSupersede(id, _) => Ref(DecisionKind, id)
    case DecideDecision(id, _, _) => Ref(DecisionKind, id)
    case QuestionAdd(_, _, _) => Ref(QuestionKind, s.questionSeq + 1)
    case AnswerQuestion(id, _) => Ref(QuestionKind, id)
  }

  lemma StepWritesTarget(s: State, t: Timed, r: Ref)
    requires r != Target(s, t.op)
    ensures Waiting(Step(s, t).state.db, r) <==> Waiting(s.db, r)
  {
    hide ParseOwnerRepo, Decimal;
    match t.op
    case PrOpen(_, _, _, _, _, _) =>
    case PrUpdate(_, _, _, _, _, _) =>
    case DecidePr(_, _, _) =>
    case MergePr(_, _) =>
    case ArtifactCreate(_, _, _, _) =>
    case ArtifactDecide(_, _, _) =>
    case DecisionAdd(_, _, _) =>
    case DecisionSupersede(_, _) =>
    case DecideDecision(_, _, _) =>
    case QuestionAdd(_, _, _) =>
    case AnswerQuestion(_, _) =>
  }

  // The steps that rule on an item: decide, or answer.
  predicate Rules(op: Op) {
    op.DecidePr? || op.ArtifactDecide? || op.DecideDecision? || op.AnswerQuestion?
  }

  lemma RuledIsGone(s: State, t: Timed)
    requires Rules(t.op)
    ensures !Waiting(Step(s, t).state.db, Target(s, t.op))
  {
  }

  lemma SameButTarget(before: Db, after: Db, r: Ref)
    requires forall q | q != r :: Waiting(after, q) <==> Waiting(before, q)
    ensures Without(Queue(after), {r}) == Without(Queue(before), {r})
  {
    hide Queue, Waiting;
    QueueIsExact(before);
    QueueIsExact(after);
    WithoutInOrder(Queue(before), {r});
    WithoutInOrder(Queue(after), {r});
    assert Elements(Queue(after)) - {r} == Elements(Queue(before)) - {r};
    OrderedUnique(Without(Queue(after), {r}), Without(Queue(before), {r}));
  }

  /** Every API and CLI step leaves all other items of the queue where they were. */
  lemma StepMovesOnlyItsItem(s: State, t: Timed)
    ensures var r := Target(s, t.op);
            Without(Queue(Step(s, t).state.db), {r}) == Without(Queue(s.db), {r})
  {
    hide Step, Queue, Target, Waiting;
    var r := Target(s, t.op);
    forall q | q != r ensures Waiting(Step(s, t).state.db, q) <==> Waiting(s.db, q) {
      StepWritesTarget(s, t, q);
    }
    SameButTarget(s.db, Step(s, t).state.db, r);
  }

  /** Deciding or answering removes exactly that item. */
  lemma RulingRemovesItsItem(s: State, t: Timed)
    requires Rules(t.op)
    ensures Queue(Step(s, t).state.db) == Without(Queue(s.db), {Target(s, t.op)})
  {
    hide Step, Queue, Target, Waiting, Without;
    StepMovesOnlyItsItem(s, t);
    RuledIsGone(s, t);
    QueueIsExact(Step(s, t).state.db);
    WithoutNothing(Queue(Step(s, t).state.db), {Target(s, t.op)});
  }

  lemma {:induction false} WithoutTwice<T>(q: seq<T>, a: set<T>, b: set<T>)
    ensures Without(Without(q, a), b) == Without(q, a + b)
  {
    if q != [] {
      WithoutTwice(q[1..], a, b);
      if q[0] !in a {
        assert ([q[0]] + Without(q[1..], a))[1..] == Without(q[1..], a);
      }
    }
  }

  function Targets(s: State, ops: seq<Timed>): set<Ref> {
    set t | t in ops :: Target(s, t.op)
  }

  /** A session of rulings, in any order and with any repetitions, removes exactly the
      items ruled on. */
  lemma {:induction false} RulingsRemoveTheirItems(s: State, ops: seq<Timed>)
    requires forall t | t in ops :: Rules(t.op)
    ensures Queue(Run(s, ops).db) == Without(Queue(s.db), Targets(s, ops))
    decreases |ops|
  {
    hide Step, Queue, Without;
    if ops == [] {
      assert Targets(s, ops) == {};
      WithoutNothing(Queue(s.db), {});
    } else {
      var s' := Step(s, ops[0]).state;
      RulingRemovesItsItem(s, ops[0]);
      RulingsRemoveTheirItems(s', ops[1..]);
      forall t | t in ops ensures Target(s', t.op) == Target(s, t.op) {}
      assert ops == [ops[0]] + ops[1..];
      assert Targets(s, ops) == {Target(s, ops[0].op)} + Targets(s', ops[1..]);
      WithoutTwice(Queue(s.db), {Target(s, ops[0].op)}, Targets(s', ops[1..]));
    }
  }

  /** The queue drains: once every item has been ruled on, nothing is left. */
  lemma QueueDrains(s: State, ops: seq<Timed>)
    requires forall t | t in ops :: Rules(t.op)
    requires Elements(Queue(s.db)) <= Targets(s, ops)
    ensures Queue(Run(s, ops).db) == []
  {
    RulingsRemoveTheirItems(s, ops);
    ElementsEmpty(Without(Queue(s.db), Targets(s, ops)));
  }

  // ----- any run

  // The rows that the steps of a run write, or would write if they succeeded.
  function Touched(s: State, ops: seq<Timed>): set<Ref>
    decreases |ops|
  {
    if ops == [] then {} else {Target(s, ops[0].op)} + Touched(Step(s, ops[0]).state, ops[1..])
  }

  /** Whatever a run of API and CLI commands does, the items that none of its steps
      names stay in the queue in their order, and none of them joins it. */
  lemma {:induction false} RunMovesOnlyItsItems(s: State, ops: seq<Timed>)
    ensures Without(Queue(Run(s, ops).db), Touched(s, ops)) == Without(Queue(s.db), Touched(s, ops))
    decreases |ops|
  {
    hide Step, Queue, Without, Target;
    if ops != [] {
      var s', r := Step(s, ops[0]).state, Target(s, ops[0].op);
      var rest, last := Touched(s', ops[1..]), Queue(Run(s, ops).db);
      StepMovesOnlyItsItem(s, ops[0]);
      RunMovesOnlyItsItems(s', ops[1..]);
      WithoutTwice(last, rest, {r});
      WithoutTwice(Queue(s'.db), rest, {r});
      WithoutTwice(Queue(s'.db), {r}, rest);
      WithoutTwice(Queue(s.db), {r}, rest);
      assert rest + {r} == {r} + rest == Touched(s, ops);
    }
  }

  function LastId(s: State, kind: Kind): int {
    match kind
    case PrKind => s.prSeq
    case ArtifactKind => s.artifactSeq
    case DecisionKind => s.decisionSeq
    case QuestionKind => s.questionSeq
  }

  lemma StepAddsNext(s: State, t: Timed, r: Ref)
    ensures LastId(s, r.kind) <= LastId(Step(s, t).state, r.kind)
    ensures Known(Step(s, t).state.db, r) ==> Known(s.db, r) || r.id == LastId(s, r.kind) + 1
  {
    hide ParseOwnerRepo, Decimal;
    match t.op
    case PrOpen(_, _, _, _, _, _) =>
    case PrUpdate(_, _, _, _, _, _) =>
    case DecidePr(_, _, _) =>
    case MergePr(_, _) =>
    case ArtifactCreate(_, _, _, _) =>
    case ArtifactDecide(_, _, _) =>
    case DecisionAdd(_, _, _) =>
    case DecisionSupersede(_, _) =>
    case DecideDecision(_, _, _) =>
    case QuestionAdd(_, _, _) =>
    case AnswerQuestion(_, _) =>
  }

  lemma {:induction false} NewIdsAreFresh(s: State, ops: seq<Timed>, r: Ref)
    ensures Known(Run(s, ops).db, r) ==> Known(s.db, r) || r.id > LastId(s, r.kind)
    decreases |ops|
  {
    hide Step, LastId, Known;
    if ops != [] {
      StepAddsNext(s, ops[0], r);
      NewIdsAreFresh(Step(s, ops[0]).state, ops[1..], r);
    }
  }

  /** What is new since some state comes, within its kind, after all that was there. */
  lemma NewItemsComeLast(s: State, ops: seq<Timed>, i: nat, j: nat)
    requires Sequenced(s)
    requires var q := Queue(Run(s, ops).db);
             && i < |q| && j < |q| && q[i].kind == q[j].kind && Known(s.db, q[i]) && !Known(s.db, q[j])
    ensures i < j
  {
    var q := Queue(Run(s, ops).db);
    QueueIsExact(Run(s, ops).db);
    assert q[j] in q;
    WaitingIsKnown(Run(s, ops).db, q[j]);
    NewIdsAreFresh(s, ops, q[j]);
    KnownIsBelow(s, q[i]);
    hide Queue, Run, Known, Waiting, Sequenced;
    assert j < i ==> Earlier(q[j], q[i]);
  }

  lemma WaitingIsKnown(db: Db, r: Ref)
    requires Waiting(db, r)
    ensures Known(db, r)
  {
  }

  lemma KnownIsBelow(s: State, r: Ref)
    requires Sequenced(s) && Known(s.db, r)
    ensures r.id <= LastId(s, r.kind)
  {
  }

  // ----- decided once, never back

  ghost predicate Decided(db: Db, r: Ref) {
    match r.kind
    case PrKind => r.id in db.prs && db.prs[r.id].decision.Some?
    case ArtifactKind => r.id in db.artifacts && db.artifacts[r.id].status != Proposed
    case DecisionKind => r.id in db.decisions && db.decisions[r.id].status != Pending
    case QuestionKind => r.id in db.questions && db.questions[r.id].answer.Some?
  }

  // Ids handed out so far stay below the sequences.
  ghost predicate Sequenced(s: State) {
    && (forall id | id in s.db.prs :: id <= s.prSeq)
    && (forall id | id in s.db.artifacts :: id <= s.artifactSeq)
    && (forall id | id in s.db.decisions :: id <= s.decisionSeq)
    && (forall id | id in s.db.questions :: id <= s.questionSeq)
  }

  lemma StepKeepsSequenced(s: State, t: Timed)
    requires Sequenced(s)
    ensures Sequenced(Step(s, t).state)
  {
    hide ParseOwnerRepo, Decimal;
    match t.op
    case PrOpen(_, _, _, _, _, _) =>
    case PrUpdate(_, _, _, _, _, _) =>
    case DecidePr(_, _, _) =>
    case MergePr(_, _) =>
    case ArtifactCreate(_, _, _, _) =>
    case ArtifactDecide(_, _, _) =>
    case DecisionAdd(_, _, _) =>
    case DecisionSupersede(_, _) =>
    case DecideDecision(_, _, _) =>
    case QuestionAdd(_, _, _) =>
    case AnswerQuestion(_, _) =>
  }

  lemma StepKeepsDecided(s: State, t: Timed, r: Ref)
    requires Sequenced(s) && Decided(s.db, r)
    ensures Decided(Step(s, t).state.db, r)
  {
    hide ParseOwnerRepo, Decimal;
    match t.op
    case PrOpen(_, _, _, _, _, _) =>
    case PrUpdate(_, _, _, _, _, _) =>
    case DecidePr(_, _, _) =>
    case MergePr(_, _) =>
    case ArtifactCreate(_, _, _, _) =>
    case ArtifactDecide(_, _, _) =>
    case DecisionAdd(_, _, _) =>
    case DecisionSupersede(_, _) =>
    case DecideDecision(_, _, _) =>
    case QuestionAdd(_, _, _) =>
    case AnswerQuestion(_, _) =>
  }

  lemma DecidedIsOver(db: Db, r: Ref)
    requires Decided(db, r)
    ensures !Waiting(db, r)
  {
  }

  /** No API or CLI step, in any run, brings a decided item back to the queue. */
  lemma {:induction false} DecidedForGood(s: State, ops: seq<Timed>, r: Ref)
    requires Sequenced(s) && Decided(s.db, r)
    ensures Decided(Run(s, ops).db, r) && r !in Queue(Run(s, ops).db)
    decreases |ops|
  {
    hide Step, Queue, Decided, Sequenced, Waiting;
    if ops == [] {
      QueueIsExact(s.db);
      DecidedIsOver(s.db, r);
    } else {
      StepKeepsSequenced(s, ops[0]);
      StepKeepsDecided(s, ops[0], r);
      DecidedForGood(Step(s, ops[0]).state, ops[1..], r);
    }
  }

  // ----- coupled columns

  // A stamp is present exactly when there is something to stamp.
  ghost predicate Coupled(db: Db) {
    && (forall id | id in db.prs :: db.prs[id].decidedAt.Some? <==> db.prs[id].decision.Some?)
    && (forall id | id in db.artifacts :: db.artifacts[id].decidedAt.Some? <==> db.artifacts[id].status != Proposed)
    && (forall id | id in db.questions :: db.questions[id].answeredAt.Some? <==> db.questions[id].answer.Some?)
  }

  lemma StepKeepsCoupled(s: State, t: Timed)
    requires Coupled(s.db)
    ensures Coupled(Step(s, t).state.db)
  {
    hide ParseOwnerRepo, Decimal;
    match t.op
    case PrOpen(_, _, _, _, _, _) =>
    case PrUpdate(_, _, _, _, _, _) =>
    case DecidePr(_, _, _) =>
    case MergePr(_, _) =>
    case ArtifactCreate(_, _, _, _) =>
    case ArtifactDecide(_, _, _) =>
    case DecisionAdd(_, _, _) =>
    case DecisionSupersede(_, _) =>
    case DecideDecision(_, _, _) =>
    case QuestionAdd(_, _, _) =>
    case AnswerQuestion(_, _) =>
  }

  lemma {:induction false} RunKeepsCoupled(s: State, ops: seq<Timed>)
    requires Coupled(s.db)
    ensures Coupled(Run(s, ops).db)
    decreases |ops|
  {
    if ops != [] {
      hide Step;
      StepKeepsCoupled(s, ops[0]);
      RunKeepsCoupled(Step(s, ops[0]).state, ops[1..]);
    }
  }
}
