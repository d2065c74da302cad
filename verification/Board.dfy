/** The grooming board: what `tasks.reorder` and the board read promise each other
    (emctl/repo/tasks.py, command_center/routers/backlog.py, the adjacent swap of
    command_center/frontend/src/views/Backlog.tsx). */
module Board {
  import opened Prelude
  import opened Ordering
  import opened Tasks

  // ----- a column is the ORDER BY of the tasks in it

  lemma ColumnIs(tasks: map<int, Task>, statuses: set<Status>)
    ensures InStatus(tasks, statuses) <= GroomKeys(tasks).Keys
    ensures Column(tasks, statuses) == OrderBy(InStatus(tasks, statuses), GroomKeys(tasks))
  {
    KeepOrderBy(tasks.Keys, GroomKeys(tasks), InStatus(tasks, statuses));
    assert tasks.Keys * InStatus(tasks, statuses) == InStatus(tasks, statuses);
  }

  // ----- the ranks a reorder writes

  // `ids` with every repeated id left only at its last mention.
  function LastMentions(ids: seq<int>): (r: seq<int>)
    ensures Elements(r) == Elements(ids)
  {
    if ids == [] then []
    else
      var init, x := ids[..|ids| - 1], ids[|ids| - 1];
      ElementsAppend(init, x);
      ElementsAppend(Without(LastMentions(init), {x}), x);
      assert init + [x] == ids;
      Without(LastMentions(init), {x}) + [x]
  }

  function RankKeys(ids: seq<int>): Keys {
    map id | id in Elements(ids) :: (0, LastIndex(ids, id))
  }

  lemma {:induction false} LastMentionsAscend(ids: seq<int>)
    ensures Ascending(RankKeys(ids), LastMentions(ids))
  {
    if ids != [] {
      var init, x := ids[..|ids| - 1], ids[|ids| - 1];
      var before := LastMentions(init);
      LastMentionsAscend(init);
      var s := Without(before, {x});
      WithoutIsKeep(before, {x}, Elements(before) - {x});
      KeepAscending(RankKeys(init), before, Elements(before) - {x});
      forall i | 0 <= i < |s|
        ensures s[i] in init && s[i] != x && LastIndex(ids, s[i]) == LastIndex(init, s[i])
      {
        assert s[i] in Elements(s);
      }
      assert LastMentions(ids) == s + [x];
      assert LastIndex(ids, x) == |ids| - 1;
    }
  }

  lemma {:induction false} LastMentionsOfDistinct(ids: seq<int>)
    requires forall i, j | 0 <= i < j < |ids| :: ids[i] != ids[j]
    ensures LastMentions(ids) == ids
  {
    hide Without;
    if ids != [] {
      var init, x := ids[..|ids| - 1], ids[|ids| - 1];
      assert forall i | 0 <= i < |init| :: init[i] == ids[i] && init[i] != x;
      assert LastMentions(ids) == Without(LastMentions(init), {x}) + [x];
      hide *;
      LastMentionsOfDistinct(init);
      WithoutNothing(init, {x});
      assert init + [x] == ids;
    }
  }

  lemma {:induction false} KeepAll<T>(s: seq<T>, keep: set<T>)
    requires forall x | x in s :: x in keep
    ensures Keep(s, keep) == s
  {
    if s != [] { KeepAll(s[1..], keep); }
  }

  // ----- reorder and display

  ghost predicate Known(tasks: map<int, Task>, ids: seq<int>) {
    forall id | id in ids :: id in tasks
  }

  lemma ReorderIsRanked(s: State, ids: seq<int>, here: set<int>)
    requires Elements(ids) == here && here <= s.db.tasks.Keys
    ensures Known(s.db.tasks, ids)
    ensures ReorderTasks(s, ids).reply.Ok?
    ensures ReorderTasks(s, ids).state.db.tasks == Ranked(s.db.tasks, ids, s.clock)
  {
    forall id | id in ids ensures id in s.db.tasks { assert id in Elements(ids); }
  }

  lemma StatusesApart(tasks: map<int, Task>, statuses: set<Status>, others: set<Status>)
    requires statuses !! others
    ensures InStatus(tasks, statuses) !! InStatus(tasks, others)
  {
  }

  // The listed tasks of a column come in the order of their last mention ...
  lemma ListedFollowIds(tasks: map<int, Task>, ids: seq<int>, now: int, statuses: set<Status>)
    requires Known(tasks, ids)
    ensures Keep(Column(Ranked(tasks, ids, now), statuses), Elements(ids)) ==
            Keep(LastMentions(ids), InStatus(tasks, statuses))
  {
    var after := Ranked(tasks, ids, now);
    var here, listed := InStatus(tasks, statuses), Elements(ids);
    var keys := GroomKeys(after);
    var shown := Keep(LastMentions(ids), here);
    hide *;
    RankedStatus(tasks, ids, now, statuses);
    RankedKeys(tasks, ids, now);
    ColumnIs(after, statuses);
    KeepOrderBy(here, keys, listed);
    LastMentionsAscend(ids);
    KeepAscending(RankKeys(ids), LastMentions(ids), here);
    ElementsAre(shown, listed * here);
    AscendingAgree(RankKeys(ids), keys, shown);
    assert listed * here == here * listed;
    OrderByIs(here * listed, keys, shown);
  }

  lemma RankedStatus(tasks: map<int, Task>, ids: seq<int>, now: int, statuses: set<Status>)
    requires Known(tasks, ids)
    ensures InStatus(Ranked(tasks, ids, now), statuses) == InStatus(tasks, statuses)
  {
  }

  lemma UnlistedKeys(tasks: map<int, Task>, ids: seq<int>, now: int, statuses: set<Status>)
    ensures forall id | id in InStatus(tasks, statuses) - Elements(ids) ::
              && id in GroomKeys(tasks) && id in GroomKeys(Ranked(tasks, ids, now))
              && GroomKeys(Ranked(tasks, ids, now))[id] == GroomKeys(tasks)[id]
  {
    hide LastIndex;
  }

  lemma RankedKeys(tasks: map<int, Task>, ids: seq<int>, now: int)
    requires Known(tasks, ids)
    ensures forall id | id in Elements(ids) ::
              && id in RankKeys(ids) && id in GroomKeys(Ranked(tasks, ids, now))
              && RankKeys(ids)[id] == GroomKeys(Ranked(tasks, ids, now))[id]
  {
  }

  lemma AscendingAgree(k1: Keys, k2: Keys, s: seq<int>)
    requires Ascending(k1, s)
    requires forall x | x in s :: x in k1 && x in k2 && k1[x] == k2[x]
    ensures Ascending(k2, s)
  {
    forall i, j | 0 <= i < j < |s| ensures Before(k2, s[i], s[j]) { assert Before(k1, s[i], s[j]); }
  }

  // ... and the others keep the order they had among themselves.
  lemma UnlistedStay(tasks: map<int, Task>, ids: seq<int>, now: int, statuses: set<Status>)
    requires Known(tasks, ids)
    ensures Without(Column(Ranked(tasks, ids, now), statuses), Elements(ids)) ==
            Without(Column(tasks, statuses), Elements(ids))
  {
    var after := Ranked(tasks, ids, now);
    var here, listed := InStatus(tasks, statuses), Elements(ids);
    hide *;
    UnlistedKeys(tasks, ids, now, statuses);
    RankedStatus(tasks, ids, now, statuses);
    ColumnIs(after, statuses);
    ColumnIs(tasks, statuses);
    WithoutOrderBy(here, GroomKeys(after), listed);
    WithoutOrderBy(here, GroomKeys(tasks), listed);
    AgreeOrderBy(here - listed, GroomKeys(after), GroomKeys(tasks));
  }

  /** The board round trip. Sending any arrangement of one column to `reorder` makes
      the next read show that column in exactly that order, whatever ranks were
      stored before; every other column reads as it did. */
  lemma ReorderThenShow(s: State, ids: seq<int>, statuses: set<Status>, others: set<Status>)
    requires forall i, j | 0 <= i < j < |ids| :: ids[i] != ids[j]
    requires Elements(ids) == Elements(Column(s.db.tasks, statuses))
    requires statuses !! others
    ensures ReorderTasks(s, ids).reply.Ok?
    ensures Column(ReorderTasks(s, ids).state.db.tasks, statuses) == ids
    ensures Column(ReorderTasks(s, ids).state.db.tasks, others) == Column(s.db.tasks, others)
  {
    var tasks := s.db.tasks;
    var here, there := InStatus(tasks, statuses), InStatus(tasks, others);
    var after := Ranked(tasks, ids, s.clock);
    ColumnElements(tasks, statuses);
    ReorderIsRanked(s, ids, here);
    hide *;
    ColumnElements(tasks, others);
    ElementsAre(ids, here);
    StatusesApart(tasks, statuses, others);
    RankedStatus(tasks, ids, s.clock, statuses);
    RankedStatus(tasks, ids, s.clock, others);
    ColumnElements(after, statuses);
    ColumnElements(after, others);
    ListedFollowIds(tasks, ids, s.clock, statuses);
    LastMentionsOfDistinct(ids);
    KeepAll(ids, here);
    ElementsAre(Column(after, statuses), Elements(ids));
    KeepAll(Column(after, statuses), Elements(ids));
    UnlistedStay(tasks, ids, s.clock, others);
    DisjointUntouched(Column(tasks, others), Elements(ids), there);
    DisjointUntouched(Column(after, others), Elements(ids), there);
  }

  lemma ColumnElements(tasks: map<int, Task>, statuses: set<Status>)
    ensures Elements(Column(tasks, statuses)) == InStatus(tasks, statuses)
    ensures Ascending(GroomKeys(tasks), Column(tasks, statuses))
  {
    hide Column;
    ColumnIs(tasks, statuses);
  }

  lemma ElementsAre<T>(s: seq<T>, all: set<T>)
    requires Elements(s) == all
    ensures forall x | x in s :: x in all
  {
    assert forall x | x in s :: x in Elements(s);
  }

  lemma DisjointUntouched(s: seq<int>, drop: set<int>, from: set<int>)
    requires Elements(s) == from && from !! drop
    ensures Without(s, drop) == s
  {
    forall x | x in s ensures x !in drop { assert x in Elements(s); }
    WithoutNothing(s, drop);
  }

  // ----- the arrows of the backlog view

  // The ids sent by moveWithin(list, index, dir); None where it returns early.
  function MoveWithin(list: seq<int>, index: int, dir: int): (ids: Option<seq<int>>)
    requires 0 <= index < |list| && (dir == 1 || dir == -1)
    ensures ids.None? <==> (index == 0 && dir == -1) || (index == |list| - 1 && dir == 1)
  {
    var target := index + dir;
    if target < 0 || target >= |list| then None
    else Some(list[index := list[target]][target := list[index]])
  }

  /** Pressing an arrow on the displayed backlog swaps that row with its neighbour,
      moves nothing else, and leaves the other columns alone. */
  lemma ArrowSwapsNeighbours(s: State, index: int, dir: int, others: set<Status>)
    requires 0 <= index < |Column(s.db.tasks, {Backlog})| && (dir == 1 || dir == -1)
    requires 0 <= index + dir < |Column(s.db.tasks, {Backlog})|
    requires Backlog !in others
    ensures
      var list := Column(s.db.tasks, {Backlog});
      var after := ReorderTasks(s, MoveWithin(list, index, dir).value).state.db.tasks;
      var shown := Column(after, {Backlog});
      && |shown| == |list|
      && shown[index] == list[index + dir] && shown[index + dir] == list[index]
      && (forall k | 0 <= k < |list| && k != index && k != index + dir :: shown[k] == list[k])
      && Column(after, others) == Column(s.db.tasks, others)
  {
    hide Column, ReorderTasks, OrderBy, InStatus, GroomKeys;
    var list := Column(s.db.tasks, {Backlog});
    var ids := MoveWithin(list, index, dir).value;
    ColumnElements(s.db.tasks, {Backlog});
    AscendingDistinct(GroomKeys(s.db.tasks), list);
    SwapKeepsElements(list, index, index + dir);
    ReorderThenShow(s, ids, {Backlog}, others);
  }

  lemma SwapKeepsElements(s: seq<int>, i: nat, j: nat)
    requires i < |s| && j < |s|
    ensures Elements(s[i := s[j]][j := s[i]]) == Elements(s)
  {
    var t := s[i := s[j]][j := s[i]];
    forall x | x in s ensures x in t {
      var k :| 0 <= k < |s| && s[k] == x;
      assert x == t[if k == i then j else if k == j then i else k];
    }
  }

  lemma AscendingDistinct(keys: Keys, s: seq<int>)
    requires Ascending(keys, s)
    ensures forall i, j | 0 <= i < j < |s| :: s[i] != s[j]
  {
    forall i, j | 0 <= i < j < |s| ensures s[i] != s[j] { assert Before(keys, s[i], s[j]); }
  }

  // ----- what the other commands do to the board

  // A new task joins its column at the bottom.
  lemma CreateAppends(s: State, projects: set<int>, n: NewTask, actor: Option<string>, statuses: set<Status>)
    requires forall id | id in s.db.tasks :: id <= s.taskSeq
    requires n.project in projects
    ensures Column(CreateTask(s, projects, n, actor).state.db.tasks, statuses) ==
            Column(s.db.tasks, statuses) +
            if n.status.Or(Backlog) in statuses then [s.taskSeq + 1] else []
  {
    var tasks, id := s.db.tasks, s.taskSeq + 1;
    var after := tasks[id := Inserted(n, s.clock)];
    hide Column, OrderBy;
    var here := InStatus(tasks, statuses);
    ColumnIs(tasks, statuses);
    ColumnIs(after, statuses);
    AgreeOrderBy(here, GroomKeys(tasks), GroomKeys(after));
    if n.status.Or(Backlog) in statuses {
      assert InStatus(after, statuses) == here + {id};
      AppendOrderBy(here, GroomKeys(after), id);
    } else {
      assert InStatus(after, statuses) == here;
    }
  }

  // Writing one row moves no other row.
  lemma PutColumn(tasks: map<int, Task>, id: int, t: Task, statuses: set<Status>)
    requires id in tasks ==> t.rank == tasks[id].rank
    ensures Without(Column(tasks[id := t], statuses), {id}) == Without(Column(tasks, statuses), {id})
  {
    hide Column, OrderBy;
    var after := tasks[id := t];
    var before', after' := InStatus(tasks, statuses), InStatus(after, statuses);
    ColumnIs(tasks, statuses);
    ColumnIs(after, statuses);
    WithoutOrderBy(before', GroomKeys(tasks), {id});
    WithoutOrderBy(after', GroomKeys(after), {id});
    assert after' - {id} == before' - {id};
    AgreeOrderBy(before' - {id}, GroomKeys(tasks), GroomKeys(after));
  }

  // No update moves any other task: only the updated one may leave or enter.
  lemma UpdateMovesOnlyItself(s: State, id: int, p: Patch, newStatus: Option<Status>,
                              actor: Option<string>, statuses: set<Status>)
    ensures Without(Column(UpdateTask(s, id, p, newStatus, actor).state.db.tasks, statuses), {id}) ==
            Without(Column(s.db.tasks, statuses), {id})
  {
    hide Column, Without;
    if id in s.db.tasks {
      PutColumn(s.db.tasks, id, Patched(s.db.tasks[id], p, s.clock), statuses);
    }
  }

  /** `reorder` is all or nothing, and succeeds exactly when every id exists; the
      first id that does not names the error. */
  lemma ReorderExact(s: State, ids: seq<int>)
    ensures var o := ReorderTasks(s, ids);
            && (o.reply.Ok? <==> Known(s.db.tasks, ids))
            && (o.reply.Err? ==>
                  && o.state == s
                  && exists k | 0 <= k < |ids| ::
                       && ids[k] !in s.db.tasks
                       && (forall j | 0 <= j < k :: ids[j] in s.db.tasks)
                       && o.reply.error == NotFound("task", ids[k]))
  {
    var k := KnownPrefix(ids, s.db.tasks.Keys);
    if k < |ids| {
      assert ids[k] !in s.db.tasks;
    } else {
      assert forall id | id in ids :: id in s.db.tasks;
    }
  }
}
