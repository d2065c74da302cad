/** The grooming board as a list of cards. A small machine keeps one list, knows neither
    rows nor clocks nor projects, and shows after every run of commands exactly what the
    board shows: so the place of every task in every column is settled, listed or not,
    ranked or not. */
module BoardList {
  import opened Prelude
  import opened Ordering
  import opened Tasks
  import opened Board

  datatype Card = Card(id: int, rank: Option<int>, status: Status)

  // ----- the machine

  predicate CardBefore(a: Card, b: Card) {
    GroomedBefore(a.id, a.rank, b.id, b.rank)
  }

  function StatusOn(cards: seq<Card>, id: int): Option<Status> {
    if cards == [] then None
    else if cards[0].id == id then Some(cards[0].status)
    else StatusOn(cards[1..], id)
  }

  function SetStatus(cards: seq<Card>, id: int, status: Status): seq<Card> {
    seq(|cards|, i requires 0 <= i < |cards| =>
      if cards[i].id == id then cards[i].(status := status) else cards[i])
  }

  // The cards that a reorder does not list stay as they are, in their order.
  function Others(cards: seq<Card>, ids: seq<int>): seq<Card> {
    if cards == [] then []
    else if cards[0].id in ids then Others(cards[1..], ids)
    else [cards[0]] + Others(cards[1..], ids)
  }

  // The listed ones are ranked by their last mention.
  function Picked(cards: seq<Card>, ids: seq<int>): seq<Card>
    requires forall id | id in ids :: StatusOn(cards, id).Some?
  {
    var order := LastMentions(ids);
    assert forall i | 0 <= i < |order| :: order[i] in Elements(order);
    seq(|order|, i requires 0 <= i < |order| =>
      Card(order[i], Some(LastIndex(ids, order[i])), StatusOn(cards, order[i]).value))
  }

  function Merge(a: seq<Card>, b: seq<Card>): seq<Card> {
    if a == [] then b
    else if b == [] then a
    else if CardBefore(a[0], b[0]) then [a[0]] + Merge(a[1..], b)
    else [b[0]] + Merge(a, b[1..])
  }

  /** `next` is the id a creation would get. A creation puts a card at the end; a status
      is written on its card, which stays where it is; a reorder merges the listed cards,
      ranked anew, with the others. */
  function CardStep(cards: seq<Card>, next: int, t: Timed): seq<Card> {
    match t.op
    case Create(n, _) =>
      if n.project in t.known then cards + [Card(next, None, n.status.Or(Backlog))] else cards
    case CliUpdate(id, f, _) =>
      if f.status.Some? && !(f.blockedReason.Some? && f.unblock) then SetStatus(cards, id, f.status.value) else cards
    case Greenlight(id, _) => if StatusOn(cards, id) == Some(Backlog) then SetStatus(cards, id, Planned) else cards
    case SetBlocked(_, _, _) => cards
    case ClearBlocked(_, _) => cards
    case Reorder(ids) =>
      if forall id | id in ids :: StatusOn(cards, id).Some?
      then Merge(Picked(cards, ids), Others(cards, ids))
      else cards
  }

  function CardRun(cards: seq<Card>, next: int, ops: seq<Timed>): seq<Card>
    decreases |ops|
  {
    if ops == [] then cards
    else CardRun(CardStep(cards, next, ops[0]), if ops[0].op.Create? then next + 1 else next, ops[1..])
  }

  // What a column of the board shows of the list.
  function Shown(cards: seq<Card>, statuses: set<Status>): seq<int> {
    if cards == [] then []
    else if cards[0].status in statuses then [cards[0].id] + Shown(cards[1..], statuses)
    else Shown(cards[1..], statuses)
  }

  // ----- the list of the stored tasks

  function Deck(tasks: map<int, Task>, ids: seq<int>): seq<Card>
    requires forall x | x in ids :: x in tasks
  {
    seq(|ids|, i requires 0 <= i < |ids| =>
      var id := ids[i];
      assert id in ids;
      Card(id, tasks[id].rank, tasks[id].status))
  }

  function Cards(tasks: map<int, Task>): seq<Card> {
    var order := GroomOrder(tasks);
    assert forall x | x in order :: x in Elements(order);
    Deck(tasks, order)
  }

  lemma OrderIsKnown(tasks: map<int, Task>)
    ensures forall x | x in GroomOrder(tasks) :: x in tasks
    ensures Elements(GroomOrder(tasks)) == tasks.Keys
    ensures Cards(tasks) == Deck(tasks, GroomOrder(tasks))
  {
    var order := GroomOrder(tasks);
    assert forall x | x in order :: x in Elements(order);
  }

  lemma {:induction false} StatusOnDeck(tasks: map<int, Task>, ids: seq<int>, id: int)
    requires forall x | x in ids :: x in tasks
    ensures StatusOn(Deck(tasks, ids), id) == if id in ids then Some(tasks[id].status) else None
  {
    if ids != [] {
      assert Deck(tasks, ids)[1..] == Deck(tasks, ids[1..]);
      StatusOnDeck(tasks, ids[1..], id);
    }
  }

  lemma StatusOnCards(tasks: map<int, Task>, id: int)
    ensures StatusOn(Cards(tasks), id) == if id in tasks then Some(tasks[id].status) else None
  {
    OrderIsKnown(tasks);
    StatusOnDeck(tasks, GroomOrder(tasks), id);
    assert id in GroomOrder(tasks) <==> id in Elements(GroomOrder(tasks));
  }

  /** A column of the board is what the list shows of it. */
  lemma ColumnIsShown(tasks: map<int, Task>, statuses: set<Status>)
    ensures Column(tasks, statuses) == Shown(Cards(tasks), statuses)
  {
    OrderIsKnown(tasks);
    ShownIsKept(tasks, GroomOrder(tasks), statuses);
  }

  lemma {:induction false} ShownIsKept(tasks: map<int, Task>, ids: seq<int>, statuses: set<Status>)
    requires forall x | x in ids :: x in tasks
    ensures Shown(Deck(tasks, ids), statuses) == Keep(ids, InStatus(tasks, statuses))
  {
    if ids != [] {
      assert Deck(tasks, ids)[1..] == Deck(tasks, ids[1..]);
      ShownIsKept(tasks, ids[1..], statuses);
    }
  }

  // ----- one command

  // Only the statuses differ: the order stays.
  lemma SameOrder(tasks: map<int, Task>, after: map<int, Task>)
    requires after.Keys == tasks.Keys && forall id | id in tasks :: after[id].rank == tasks[id].rank
    ensures GroomOrder(after) == GroomOrder(tasks)
  {
    hide OrderBy;
    AgreeOrderBy(tasks.Keys, GroomKeys(after), GroomKeys(tasks));
  }

  lemma PutKeepsList(tasks: map<int, Task>, id: int, t: Task)
    requires id in tasks && t.rank == tasks[id].rank
    ensures Cards(tasks[id := t]) == SetStatus(Cards(tasks), id, t.status)
  {
    var after := tasks[id := t];
    SameOrder(tasks, after);
    hide GroomOrder, Cards;
    OrderIsKnown(tasks);
    OrderIsKnown(after);
    PutDeck(tasks, id, t, GroomOrder(tasks));
  }

  lemma PutDeck(tasks: map<int, Task>, id: int, t: Task, order: seq<int>)
    requires id in tasks && t.rank == tasks[id].rank && forall x | x in order :: x in tasks
    ensures Deck(tasks[id := t], order) == SetStatus(Deck(tasks, order), id, t.status)
  {
  }

  // Writing the status a card has changes nothing, nor does naming no card.
  lemma SetNothing(tasks: map<int, Task>, id: int, status: Status)
    requires id in tasks ==> tasks[id].status == status
    ensures SetStatus(Cards(tasks), id, status) == Cards(tasks)
  {
    hide GroomOrder;
    OrderIsKnown(tasks);
  }

  lemma CreateEndsList(tasks: map<int, Task>, id: int, t: Task)
    requires (forall x | x in tasks :: x < id) && t.rank.None?
    ensures Cards(tasks[id := t]) == Cards(tasks) + [Card(id, None, t.status)]
  {
    var after := tasks[id := t];
    assert after.Keys == tasks.Keys + {id};
    assert forall x | x in tasks :: Before(GroomKeys(after), x, id);
    OrderIsKnown(tasks);
    hide OrderBy, Before;
    AgreeOrderBy(tasks.Keys, GroomKeys(tasks), GroomKeys(after));
    AppendOrderBy(tasks.Keys, GroomKeys(after), id);
    assert GroomOrder(after) == GroomOrder(tasks) + [id];
    OrderIsKnown(after);
    hide GroomOrder;
  }

  // ----- a reorder

  lemma RankedOrder(tasks: map<int, Task>, ids: seq<int>, now: int)
    requires Known(tasks, ids)
    ensures var after, a := Ranked(tasks, ids, now), LastMentions(ids);
            var b := Without(GroomOrder(tasks), Elements(ids));
            && (forall x | x in a :: x in GroomKeys(after)) && (forall x | x in b :: x in GroomKeys(after))
            && GroomOrder(after) == MergeIds(GroomKeys(after), a, b)
  {
    hide *;
    var after, listed := Ranked(tasks, ids, now), Elements(ids);
    var keys, a := GroomKeys(after), LastMentions(ids);
    OrdersAre(tasks, ids, now);
    RankedKeys(tasks, ids, now);
    LastMentionsAscend(ids);
    ElementsAre(a, listed);
    AscendingAgree(RankKeys(ids), keys, a);
    WithoutOrderBy(tasks.Keys, GroomKeys(tasks), listed);
    AgreeOrderBy(tasks.Keys - listed, GroomKeys(tasks), keys);
    MergedOrder(after.Keys, keys, a, listed);
  }

  lemma MergedOrder(ids: set<int>, keys: Keys, a: seq<int>, listed: set<int>)
    requires ids == keys.Keys && listed <= ids && Ascending(keys, a) && Elements(a) == listed
    ensures var b := OrderBy(ids - listed, keys);
            && (forall x | x in a :: x in keys) && (forall x | x in b :: x in keys)
            && OrderBy(ids, keys) == MergeIds(keys, a, b)
  {
    hide *;
    var b := OrderBy(ids - listed, keys);
    ElementsAre(a, listed);
    ElementsAre(b, ids - listed);
    MergeAscending(keys, a, b);
    ElementsUnion(MergeIds(keys, a, b), a, b);
    assert listed + (ids - listed) == ids;
    OrderByIs(ids, keys, MergeIds(keys, a, b));
  }

  lemma OrdersAre(tasks: map<int, Task>, ids: seq<int>, now: int)
    requires Known(tasks, ids)
    ensures var after := Ranked(tasks, ids, now);
            && GroomOrder(tasks) == OrderBy(tasks.Keys, GroomKeys(tasks)) && tasks.Keys == GroomKeys(tasks).Keys
            && GroomOrder(after) == OrderBy(after.Keys, GroomKeys(after)) && after.Keys == GroomKeys(after).Keys
            && after.Keys == tasks.Keys && Elements(ids) <= tasks.Keys
            && forall x | x in tasks.Keys - Elements(ids) :: GroomKeys(after)[x] == GroomKeys(tasks)[x]
  {
    forall x | x in Elements(ids) ensures x in tasks.Keys { assert x in ids; }
    hide OrderBy, LastIndex;
  }

  lemma ElementsUnion(all: seq<int>, a: seq<int>, b: seq<int>)
    requires forall x :: x in all <==> x in a || x in b
    ensures Elements(all) == Elements(a) + Elements(b)
  {
    forall x ensures x in Elements(all) <==> x in Elements(a) || x in Elements(b) {
      assert x in all <==> x in a || x in b;
    }
  }

  lemma {:induction false} MergeDecks(tasks: map<int, Task>, a: seq<int>, b: seq<int>)
    requires (forall x | x in a :: x in tasks) && (forall x | x in b :: x in tasks)
    ensures forall x | x in MergeIds(GroomKeys(tasks), a, b) :: x in tasks
    ensures Deck(tasks, MergeIds(GroomKeys(tasks), a, b)) == Merge(Deck(tasks, a), Deck(tasks, b))
    decreases |a| + |b|
  {
    var keys := GroomKeys(tasks);
    if a != [] && b != [] {
      assert Before(keys, a[0], b[0]) <==> CardBefore(Deck(tasks, a)[0], Deck(tasks, b)[0]);
      if Before(keys, a[0], b[0]) {
        assert Deck(tasks, a)[1..] == Deck(tasks, a[1..]);
        MergeDecks(tasks, a[1..], b);
      } else {
        assert Deck(tasks, b)[1..] == Deck(tasks, b[1..]);
        MergeDecks(tasks, a, b[1..]);
      }
    }
  }

  lemma {:induction false} OthersOfDeck(tasks: map<int, Task>, order: seq<int>, ids: seq<int>)
    requires forall x | x in order :: x in tasks
    ensures forall x | x in Without(order, Elements(ids)) :: x in tasks
    ensures Others(Deck(tasks, order), ids) == Deck(tasks, Without(order, Elements(ids)))
  {
    if order != [] {
      assert Deck(tasks, order)[1..] == Deck(tasks, order[1..]);
      OthersOfDeck(tasks, order[1..], ids);
      assert order[0] in ids <==> order[0] in Elements(ids);
    }
  }

  lemma ReorderMerges(tasks: map<int, Task>, ids: seq<int>, now: int)
    requires Known(tasks, ids)
    ensures forall id | id in ids :: StatusOn(Cards(tasks), id).Some?
    ensures Cards(Ranked(tasks, ids, now)) == Merge(Picked(Cards(tasks), ids), Others(Cards(tasks), ids))
  {
    var after, listed := Ranked(tasks, ids, now), Elements(ids);
    var a, b := LastMentions(ids), Without(GroomOrder(tasks), listed);
    forall id | id in ids ensures StatusOn(Cards(tasks), id).Some? { StatusOnCards(tasks, id); }
    KeysAreTasks(after);
    RankedOrder(tasks, ids, now);
    OrderIsKnown(tasks);
    OrderIsKnown(after);
    PickedDeck(tasks, ids, now);
    UnpickedDeck(tasks, ids, now);
    hide *;
    OthersOfDeck(tasks, GroomOrder(tasks), ids);
    MergeDecks(after, a, b);
  }

  lemma KeysAreTasks(tasks: map<int, Task>)
    ensures GroomKeys(tasks).Keys == tasks.Keys
  {
  }

  lemma PickedDeck(tasks: map<int, Task>, ids: seq<int>, now: int)
    requires Known(tasks, ids) && forall id | id in ids :: StatusOn(Cards(tasks), id).Some?
    ensures forall x | x in LastMentions(ids) :: x in Ranked(tasks, ids, now)
    ensures Picked(Cards(tasks), ids) == Deck(Ranked(tasks, ids, now), LastMentions(ids))
  {
    var order := LastMentions(ids);
    hide LastMentions, Cards, StatusOn, LastIndex;
    forall i | 0 <= i < |order| ensures order[i] in ids && order[i] in tasks {
      assert order[i] in Elements(order);
      StatusOnCards(tasks, order[i]);
    }
    forall i | 0 <= i < |order|
      ensures StatusOn(Cards(tasks), order[i]) == Some(tasks[order[i]].status)
    {
      StatusOnCards(tasks, order[i]);
    }
  }

  lemma UnpickedDeck(tasks: map<int, Task>, ids: seq<int>, now: int)
    requires Known(tasks, ids)
    ensures var b := Without(GroomOrder(tasks), Elements(ids));
            && (forall x | x in b :: x in tasks)
            && Deck(Ranked(tasks, ids, now), b) == Deck(tasks, b)
  {
    var b := Without(GroomOrder(tasks), Elements(ids));
    OrderIsKnown(tasks);
    hide GroomOrder, Without, LastIndex;
    forall i | 0 <= i < |b| ensures b[i] in tasks && b[i] !in ids { assert b[i] in Elements(b); }
  }

  // ----- whole runs

  lemma StepIsCardStep(s: State, t: Timed)
    requires forall id | id in s.db.tasks :: id <= s.taskSeq
    ensures Cards(Step(s, t).state.db.tasks) == CardStep(Cards(s.db.tasks), s.taskSeq + 1, t)
    ensures Step(s, t).state.taskSeq == if t.op.Create? then s.taskSeq + 1 else s.taskSeq
    ensures forall id | id in Step(s, t).state.db.tasks :: id <= Step(s, t).state.taskSeq
  {
    var tasks := s.db.tasks;
    hide Cards, SetStatus, Merge, Picked, Others, StatusOn, Ranked, RankedRows;
    match t.op
    case Create(n, _) =>
      if n.project in t.known { CreateEndsList(tasks, s.taskSeq + 1, Inserted(n, t.now)); }
    case CliUpdate(id, f, _) =>
      if id in tasks {
        PutKeepsList(tasks, id, Patched(tasks[id], PatchOf(f), t.now));
        if f.status.None? { SetNothing(tasks, id, tasks[id].status); }
      } else if f.status.Some? {
        SetNothing(tasks, id, f.status.value);
      }
    case Greenlight(id, _) =>
      StatusOnCards(tasks, id);
      if id in tasks { PutKeepsList(tasks, id, Patched(tasks[id], NoPatch.(status := Some(Planned)), t.now)); }
    case SetBlocked(id, reason, _) =>
      if id in tasks { BlockKeepsList(tasks, id, Some(reason), t.now); }
    case ClearBlocked(id, _) =>
      if id in tasks { BlockKeepsList(tasks, id, None, t.now); }
    case Reorder(ids) =>
      if Known(tasks, ids) {
        ReorderMerges(tasks, ids, t.now);
      } else {
        var id :| id in ids && id !in tasks;
        StatusOnCards(tasks, id);
      }
  }

  lemma BlockKeepsList(tasks: map<int, Task>, id: int, reason: Option<string>, now: int)
    requires id in tasks
    ensures Cards(tasks[id := Patched(tasks[id], NoPatch.(block := Some(reason)), now)]) == Cards(tasks)
  {
    PutKeepsList(tasks, id, Patched(tasks[id], NoPatch.(block := Some(reason)), now));
    SetNothing(tasks, id, tasks[id].status);
  }

  /** Refinement, over every serial run of creations, updates, greenlights, blocks,
      unblocks and reorders: the board is the list. */
  lemma {:induction false} BoardIsAList(s: State, ops: seq<Timed>, statuses: set<Status>)
    requires forall id | id in s.db.tasks :: id <= s.taskSeq
    ensures Column(Run(s, ops).db.tasks, statuses) ==
            Shown(CardRun(Cards(s.db.tasks), s.taskSeq + 1, ops), statuses)
    decreases |ops|
  {
    hide Step, Cards, CardStep, Shown, Column;
    if ops == [] {
      ColumnIsShown(s.db.tasks, statuses);
    } else {
      StepIsCardStep(s, ops[0]);
      BoardIsAList(Step(s, ops[0]).state, ops[1..], statuses);
    }
  }
}
