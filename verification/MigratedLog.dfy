/** The history that migration 0003 leaves in a database, read as the store reads it. */
module MigratedLog {
  import opened Prelude
  import opened Ordering
  import opened Schema
  import opened Migrations
  import opened RevisionSchemas
  import opened MigrationTheorems
  import opened StoreSchema
  import S = Sql
  import T = Tasks
  import H = TaskHistory
  import TaskRows

  // The stored tasks are these, column by column.
  ghost predicate StoresTasks(d: Db, tasks: map<int, T.Task>) {
    && Tasks in d.tables && d.tables[Tasks].rows.Keys == tasks.Keys
    && forall id, c | id in tasks && c in d.tables[Tasks].rows[id] ::
         SqlValue(d.tables[Tasks].rows[id][c]) == TaskRows.ColumnOf(id, tasks[id], ColName(c))
  }

  function Optional(text: Option<string>): Value {
    match text case None => Null case Some(s) => Text(s)
  }

  function StatusOf(s: Option<T.Status>): Value {
    match s case None => Null case Some(status) => Text(TaskRows.StatusText(status))
  }

  function EventRow(e: int, event: T.Event): Row {
    map[Id := Int(e), TaskId := Int(event.task), FromStatus := StatusOf(event.from),
        ToStatus := StatusOf(Some(event.to)), Actor := Optional(event.actor), At := Time(event.at)]
  }

  // The stored history is this one.
  ghost predicate StoresEvents(d: Db, events: map<int, T.Event>) {
    && TaskEvents in d.tables && d.tables[TaskEvents].rows.Keys == events.Keys
    && forall e | e in events :: d.tables[TaskEvents].rows[e] == EventRow(e, events[e])
  }

  lemma StatusTextsDiffer(a: T.Status, b: T.Status)
    requires TaskRows.StatusText(a) == TaskRows.StatusText(b)
    ensures a == b
  {
    var x, y := TaskRows.StatusText(a), TaskRows.StatusText(b);
    assert |x| == |y| && x[0] == y[0];
  }

  lemma EventRowIsOne(e: int, a: T.Event, b: T.Event)
    requires EventRow(e, a) == EventRow(e, b)
    ensures a == b
  {
    var x, y := EventRow(e, a), EventRow(e, b);
    hide TaskRows.StatusText;
    assert x[TaskId] == y[TaskId] && x[FromStatus] == y[FromStatus] && x[ToStatus] == y[ToStatus];
    assert x[Actor] == y[Actor] && x[At] == y[At];
    StatusTextsDiffer(a.to, b.to);
    if a.from.Some? && b.from.Some? { StatusTextsDiffer(a.from.value, b.from.value); }
  }

  // The row of a visited task's event.
  lemma SyntheticRow(d: Db, tasks: map<int, T.Task>, order: seq<int>, e: int, now: int)
    requires StoresTasks(d, tasks) && Visits(d.tables[Tasks], order) && 1 <= e <= |order|
    ensures order[e - 1] in tasks
    ensures Synthetic(d.tables[Tasks], order, e, now) == EventRow(e, H.Synthetic(tasks, order, e, now))
  {
    var id := order[e - 1];
    assert id in tasks && Status in d.tables[Tasks].rows[id];
    StatusColumn(id, tasks[id]);
    var v := d.tables[Tasks].rows[id][Status];
    assert SqlValue(v) == S.Text(TaskRows.StatusText(tasks[id].status));
    hide TaskRows.StatusText, StoresTasks;
    assert v == Text(TaskRows.StatusText(tasks[id].status));
  }

  lemma StatusColumn(id: int, t: T.Task)
    ensures TaskRows.ColumnOf(id, t, ColName(Status)) == S.Text(TaskRows.StatusText(t.status))
  {
    hide TaskRows.StatusText;
  }

  /** The history that the backfill stores is the one that the store's own model of the
      migration starts from, and no other. */
  lemma StoredLogIs(d: Db, tasks: map<int, T.Task>, events: map<int, T.Event>, order: seq<int>, now: int)
    requires LogSeeded(d, order, now) && StoresTasks(d, tasks)
    ensures Elements(order) == tasks.Keys
    ensures StoresEvents(d, events) <==> events == H.Backfilled(tasks, order, now)
  {
    ListedAre(d, tasks, order);
    var stored := H.Backfilled(tasks, order, now);
    forall e | 1 <= e <= |order|
      ensures d.tables[TaskEvents].rows[e] == EventRow(e, stored[e])
    {
      SyntheticRow(d, tasks, order, e, now);
    }
    assert d.tables[TaskEvents].rows.Keys == stored.Keys;
    hide EventRow, Synthetic, H.Synthetic, Lists, Visits, StoresTasks;
    if StoresEvents(d, events) {
      forall e | e in events ensures events[e] == stored[e] { EventRowIsOne(e, events[e], stored[e]); }
      assert events == stored;
    }
  }

  lemma ListedAre(d: Db, tasks: map<int, T.Task>, order: seq<int>)
    requires StoresTasks(d, tasks) && Lists(order, d.tables[Tasks])
    ensures Elements(order) == tasks.Keys && H.Distinct(order)
  {
    forall id ensures id in Elements(order) <==> id in tasks.Keys {
      assert id in Elements(order) <==> id in order;
    }
  }

  /** A database of revision 0001, migrated by 0003 and put to use: whatever tasks and
      history the store reads from it, every later run keeps the two in step. */
  lemma MigratedStoreRuns(db: Db, d: Db, order: seq<int>, now: int, tasks: map<int, T.Task>,
                          events: map<int, T.Event>, taskSeq: int, ops: seq<T.Timed>)
    requires Valid(V1, db) && Listing(V3, db, order) && ApplyAll(Upgrade(V3, order, now), db) == Some(d)
    requires StoresTasks(d, tasks) && StoresEvents(d, events) && Clocked(now, ops)
    requires forall id | id in tasks :: id <= taskSeq && (tasks[id].blocked <==> tasks[id].blockedReason.Some?)
    ensures H.Inv(T.Run(T.State(T.Db(tasks, events), taskSeq, |order|, now), ops))
  {
    hide *;
    UpgradeWithBackfill(db, order, now);
    SeededLists(d, order, now);
    StoredLogIs(d, tasks, events, order, now);
    ListedAre(d, tasks, order);
    H.UpgradedThenRuns(tasks, order, taskSeq, now, ops);
  }

  lemma SeededLists(d: Db, order: seq<int>, now: int)
    requires LogSeeded(d, order, now)
    ensures Tasks in d.tables && Lists(order, d.tables[Tasks])
  {
  }
}
