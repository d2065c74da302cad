/** The imperative repositories over the task tables: a connection whose statements
    change its own working tables, and a store that commits or rolls them back
    (emctl/db.py, emctl/repo/tasks.py, emctl/services.py and their callers). */
module TaskStore {
  import opened Prelude
  import opened Ordering
  import opened Tasks

  /** One open transaction. */
  class Conn {
    var tasks: map<int, Task>
    var events: map<int, Event>
    var taskSeq: int
    var eventSeq: int
    const now: int
    const projects: set<int>

    constructor (s: State, now: int, projects: set<int>)
      ensures this.now == now && this.projects == projects
      ensures View() == s.(clock := now)
    {
      tasks, events := s.db.tasks, s.db.events;
      taskSeq, eventSeq := s.taskSeq, s.eventSeq;
      this.now, this.projects := now, projects;
    }

    function View(): State reads this {
      State(Db(tasks, events), taskSeq, eventSeq, now)
    }

    // What a method owes its caller: the reply always, the sequences always (they
    // outlive a rollback), the tables when it succeeds.
    ghost predicate Delivers(o: Outcome, r: Reply) reads this {
      && r == o.reply
      && taskSeq == o.state.taskSeq && eventSeq == o.state.eventSeq
      && (r.Ok? ==> View() == o.state)
    }

    // ----- emctl/repo/tasks.py and task_events.py

    method GetTask(id: int) returns (r: Result<Task>)
      ensures r == if id in tasks then Ok(tasks[id]) else Err(NotFound("task", id))
    {
      if id in tasks { r := Ok(tasks[id]); } else { r := Err(NotFound("task", id)); }
    }

    method InsertTask(n: NewTask) returns (r: Result<TaskRow>)
      modifies this
      ensures taskSeq == old(taskSeq) + 1 && eventSeq == old(eventSeq) && events == old(events)
      ensures n.project !in projects ==> r == Err(Conflict) && tasks == old(tasks)
      ensures n.project in projects ==>
                && r == Ok(TaskRow(taskSeq, Inserted(n, now)))
                && tasks == old(tasks)[taskSeq := Inserted(n, now)]
    {
      taskSeq := taskSeq + 1;
      if n.project !in projects { return Err(Conflict); }
      var row := Inserted(n, now);
      tasks := tasks[taskSeq := row];
      r := Ok(TaskRow(taskSeq, row));
    }

    method PatchTask(id: int, p: Patch) returns (r: Result<Task>)
      modifies this
      ensures id !in old(tasks) ==> r == Err(NotFound("task", id)) && View() == old(View())
      ensures id in old(tasks) ==>
                && r == Ok(Patched(old(tasks)[id], p, now))
                && View() == PutTask(old(View()), id, Patched(old(tasks)[id], p, now))
    {
      if id !in tasks { return Err(NotFound("task", id)); }
      tasks := tasks[id := Patched(tasks[id], p, now)];
      r := Ok(tasks[id]);
    }

    method RecordEvent(task: int, from: Option<Status>, to: Status, actor: Option<string>)
      modifies this
      ensures View() == AddEvent(old(View()), Event(task, from, to, actor, now))
    {
      eventSeq := eventSeq + 1;
      events := events[eventSeq := Event(task, from, to, actor, now)];
    }

    method Reorder(ids: seq<int>) returns (r: Reply)
      modifies this
      ensures Delivers(ReorderTasks(old(View()), ids), r)
    {
      ghost var before := View();
      FirstRank(tasks, now);
      hide Ranked, RankedRows, ReorderTasks, LastIndex;
      var updated: seq<TaskRow> := [];
      for rank := 0 to |ids|
        invariant forall j | 0 <= j < rank :: ids[j] in old(tasks)
        invariant tasks == Ranked(old(tasks), ids[..rank], now)
        invariant updated == RankedRows(old(tasks), ids[..rank], now)
        invariant events == old(events) && taskSeq == old(taskSeq) && eventSeq == old(eventSeq)
      {
        var id := ids[rank];
        if id !in tasks {
          ReorderStops(before, ids, rank);
          return Err(NotFound("task", id));
        }
        RankedSnoc(old(tasks), ids[..rank], id, now);
        tasks := tasks[id := tasks[id].(rank := Some(rank), updatedAt := now)];
        updated := updated + [TaskRow(id, tasks[id])];
        assert ids[..rank + 1] == ids[..rank] + [id];
      }
      ReorderStops(before, ids, |ids|);
      r := Ok(updated);
    }

    // ----- emctl/services.py

    method Create(n: NewTask, actor: Option<string>) returns (r: Reply)
      modifies this
      ensures Delivers(CreateTask(old(View()), projects, n, actor), r)
    {
      var inserted := InsertTask(n);
      match inserted
      case Err(e) => r := Err(e);
      case Ok(row) =>
        RecordEvent(row.id, None, row.task.status, actor);
        r := Ok([row]);
    }

    method Update(id: int, values: Patch, newStatus: Option<Status>, actor: Option<string>)
      returns (r: Reply)
      modifies this
      ensures Delivers(UpdateTask(old(View()), id, values, newStatus, actor), r)
    {
      var current := GetTask(id);
      if current.Err? { return Err(current.error); }
      var row := PatchTask(id, values);
      if newStatus.Some? && newStatus.value != current.value.status {
        RecordEvent(id, Some(current.value.status), newStatus.value, actor);
      }
      r := Ok([TaskRow(id, row.value)]);
    }

    // ----- reads

    // The tasks in grooming order, or those of one status.
    method ListForGroom(status: Option<Status>) returns (ids: seq<int>)
      ensures forall id :: id in ids <==> id in tasks && (status.None? || tasks[id].status == status.value)
      ensures forall i, j | 0 <= i < j < |ids| ::
                && ids[i] in tasks && ids[j] in tasks
                && match (tasks[ids[i]].rank, tasks[ids[j]].rank)
                   case (Some(r), Some(q)) => r < q || (r == q && ids[i] < ids[j])
                   case (Some(_), None) => true
                   case (None, Some(_)) => false
                   case (None, None) => ids[i] < ids[j]
      ensures status.None? ==> ids == GroomOrder(tasks)
    {
      var chosen := set id | id in tasks && (status.None? || tasks[id].status == status.value);
      ids := OrderBy(chosen, GroomKeys(tasks));
      assert forall id :: id in ids <==> id in Elements(ids);
      forall i, j | 0 <= i < j < |ids|
        ensures ids[i] in tasks && ids[j] in tasks
        ensures GroomedBefore(ids[i], tasks[ids[i]].rank, ids[j], tasks[ids[j]].rank)
      {
        assert Before(GroomKeys(tasks), ids[i], ids[j]);
      }
      if status.None? { assert chosen == tasks.Keys; }
    }

    // GET /api/backlog: the three columns of the board; done tasks are not shown.
    method Board() returns (backlog: seq<TaskRow>, planned: seq<TaskRow>, inFlight: seq<TaskRow>)
      ensures Shows(backlog, Column(tasks, {Backlog}), tasks)
      ensures Shows(planned, Column(tasks, {Planned}), tasks)
      ensures Shows(inFlight, Column(tasks, IN_FLIGHT), tasks)
      ensures IsBucket(backlog, tasks, {Backlog}) && IsBucket(planned, tasks, {Planned})
      ensures IsBucket(inFlight, tasks, {InProgress, InReview, AwaitingTyler})
    {
      var rows := ListForGroom(None);
      ghost var b, p, f := InStatus(tasks, {Backlog}), InStatus(tasks, {Planned}), InStatus(tasks, IN_FLIGHT);
      GroomOrderElements(tasks);
      hide *;
      backlog, planned, inFlight := [], [], [];
      ShowsNothing(tasks);
      for i := 0 to |rows|
        invariant Shows(backlog, Keep(rows[..i], b), tasks)
        invariant Shows(planned, Keep(rows[..i], p), tasks)
        invariant Shows(inFlight, Keep(rows[..i], f), tasks)
      {
        var id := rows[i];
        StatusDecides(tasks, id);
        var row := TaskRow(id, tasks[id]);
        NextShown(backlog, rows, i, b, tasks);
        NextShown(planned, rows, i, p, tasks);
        NextShown(inFlight, rows, i, f, tasks);
        if row.task.status == Backlog {
          backlog := backlog + [row];
        } else if row.task.status == Planned {
          planned := planned + [row];
        } else if row.task.status in IN_FLIGHT {
          inFlight := inFlight + [row];
        }
      }
      assert rows[..|rows|] == rows;
      ColumnsAre(tasks);
      BucketOf(backlog, tasks, {Backlog});
      BucketOf(planned, tasks, {Planned});
      BucketOf(inFlight, tasks, IN_FLIGHT);
    }

    // `task history`: the task must exist; then its events, oldest first.
    method TaskHistory(id: int) returns (r: Result<seq<EventRow>>)
      ensures id !in tasks ==> r == Err(NotFound("task", id))
      ensures id in tasks ==> r.Ok?
      ensures r.Ok? ==> IsLogOf(r.value, events, id) && Events(r.value) == History(events, id)
    {
      var current := GetTask(id);
      if current.Err? { return Err(current.error); }
      LogInOrder(events, id);
      r := Ok(LogRows(events, id));
    }
  }

  /** Exactly the stored tasks of these statuses, each once, ranked before unranked, by
      rank and then id, unranked by id. */
  ghost predicate IsBucket(rows: seq<TaskRow>, tasks: map<int, Task>, statuses: set<Status>) {
    && (forall i | 0 <= i < |rows| ::
          rows[i].id in tasks && rows[i].task == tasks[rows[i].id] && rows[i].task.status in statuses)
    && (forall id | id in tasks && tasks[id].status in statuses :: exists i :: 0 <= i < |rows| && rows[i].id == id)
    && forall i, j | 0 <= i < j < |rows| ::
         match (rows[i].task.rank, rows[j].task.rank)
         case (Some(r), Some(q)) => r < q || (r == q && rows[i].id < rows[j].id)
         case (Some(_), None) => true
         case (None, Some(_)) => false
         case (None, None) => rows[i].id < rows[j].id
  }

  lemma BucketOf(rows: seq<TaskRow>, tasks: map<int, Task>, statuses: set<Status>)
    requires Shows(rows, Column(tasks, statuses), tasks)
    ensures IsBucket(rows, tasks, statuses)
  {
    ColumnInOrder(tasks, statuses);
    var ids := Column(tasks, statuses);
    hide Column, GroomedBefore;
    forall i | 0 <= i < |rows| ensures rows[i].task.status in statuses { assert ids[i] in ids; }
    forall id | id in tasks && tasks[id].status in statuses ensures exists i :: 0 <= i < |rows| && rows[i].id == id {
      assert id in ids;
      var i :| 0 <= i < |ids| && ids[i] == id;
      assert rows[i].id == id;
    }
    forall i, j | 0 <= i < j < |rows|
      ensures match (rows[i].task.rank, rows[j].task.rank)
              case (Some(r), Some(q)) => r < q || (r == q && rows[i].id < rows[j].id)
              case (Some(_), None) => true
              case (None, Some(_)) => false
              case (None, None) => rows[i].id < rows[j].id
    {
      assert GroomedBefore(ids[i], tasks[ids[i]].rank, ids[j], tasks[ids[j]].rank);
      GroomedMeans(ids[i], tasks[ids[i]].rank, ids[j], tasks[ids[j]].rank);
    }
  }

  lemma GroomedMeans(a: int, rank: Option<int>, b: int, otherRank: Option<int>)
    ensures GroomedBefore(a, rank, b, otherRank) ==
            match (rank, otherRank)
            case (Some(r), Some(q)) => r < q || (r == q && a < b)
            case (Some(_), None) => true
            case (None, Some(_)) => false
            case (None, None) => a < b
  {
  }

  lemma ColumnInOrder(tasks: map<int, Task>, statuses: set<Status>)
    ensures forall id :: id in Column(tasks, statuses) <==> id in tasks && tasks[id].status in statuses
    ensures var ids := Column(tasks, statuses);
            forall i, j | 0 <= i < j < |ids| ::
              && ids[i] in tasks && ids[j] in tasks
              && GroomedBefore(ids[i], tasks[ids[i]].rank, ids[j], tasks[ids[j]].rank)
  {
    var ids, here, keys := Column(tasks, statuses), InStatus(tasks, statuses), GroomKeys(tasks);
    GroomOrderElements(tasks);
    assert Ascending(keys, GroomOrder(tasks));
    InStatusIsStored(tasks, statuses);
    assert forall id :: id in ids <==> id in Elements(ids);
    assert forall id :: id in here <==> id in tasks && tasks[id].status in statuses;
    hide GroomKeys, InStatus, GroomOrder;
    KeepAscending(keys, GroomOrder(tasks), here);
    forall i, j | 0 <= i < j < |ids|
      ensures ids[i] in tasks && ids[j] in tasks
      ensures GroomedBefore(ids[i], tasks[ids[i]].rank, ids[j], tasks[ids[j]].rank)
    {
      assert ids[i] in ids && ids[j] in ids && Before(keys, ids[i], ids[j]);
      KeysOrder(tasks, ids[i], ids[j]);
    }
  }

  lemma KeysOrder(tasks: map<int, Task>, a: int, b: int)
    requires a in tasks && b in tasks && Before(GroomKeys(tasks), a, b)
    ensures GroomedBefore(a, tasks[a].rank, b, tasks[b].rank)
  {
  }

  lemma InStatusIsStored(tasks: map<int, Task>, statuses: set<Status>)
    ensures InStatus(tasks, statuses) <= tasks.Keys
  {
  }

  datatype EventRow = EventRow(id: int, event: Event)

  // Exactly the stored events of the task, each once, by time and then id.
  ghost predicate IsLogOf(rows: seq<EventRow>, events: map<int, Event>, task: int) {
    && (forall i | 0 <= i < |rows| ::
          rows[i].id in events && rows[i].event == events[rows[i].id] && rows[i].event.task == task)
    && (forall e | e in events && events[e].task == task :: exists i :: 0 <= i < |rows| && rows[i].id == e)
    && (forall i, j | 0 <= i < j < |rows| ::
          || rows[i].event.at < rows[j].event.at
          || (rows[i].event.at == rows[j].event.at && rows[i].id < rows[j].id))
  }

  // The rows of one task's history, as the ordered read returns them.
  function LogRows(events: map<int, Event>, task: int): seq<EventRow> {
    var order := EventOrder(events, task);
    seq(|order|, i requires 0 <= i < |order| => EventRow(order[i], events[order[i]]))
  }

  function Events(rows: seq<EventRow>): seq<Event> {
    seq(|rows|, i requires 0 <= i < |rows| => rows[i].event)
  }

  lemma LogInOrder(events: map<int, Event>, task: int)
    ensures IsLogOf(LogRows(events, task), events, task)
    ensures Events(LogRows(events, task)) == History(events, task)
  {
    var ids, order, rows := EventIds(events, task), EventOrder(events, task), LogRows(events, task);
    assert order == OrderBy(ids, EventKeys(events));
    forall e | e in events && events[e].task == task ensures exists i :: 0 <= i < |rows| && rows[i].id == e {
      assert e in ids && e in Elements(order);
      var i :| 0 <= i < |order| && order[i] == e;
      assert rows[i].id == e;
    }
    forall i, j | 0 <= i < j < |rows|
      ensures rows[i].event.at < rows[j].event.at ||
              (rows[i].event.at == rows[j].event.at && rows[i].id < rows[j].id)
    {
      assert Before(EventKeys(events), order[i], order[j]);
    }
  }

  lemma FirstRank(tasks: map<int, Task>, now: int)
    ensures Ranked(tasks, [], now) == tasks && RankedRows(tasks, [], now) == []
  {
  }

  // What the loop has found after k ids: all of them, or the first unknown one.
  lemma ReorderStops(before: State, ids: seq<int>, k: nat)
    requires k <= |ids| && (forall j | 0 <= j < k :: ids[j] in before.db.tasks)
    requires k < |ids| ==> ids[k] !in before.db.tasks
    ensures var o := ReorderTasks(before, ids);
            if k < |ids| then o.state == before && o.reply == Err(NotFound("task", ids[k]))
            else
              && ids[..k] == ids && o.reply == Ok(RankedRows(before.db.tasks, ids, before.clock))
              && o.state == before.(db := before.db.(tasks := Ranked(before.db.tasks, ids, before.clock)))
  {
    assert ids[..|ids|] == ids;
  }

  // One more UPDATE of the reorder loop.
  lemma RankedSnoc(tasks: map<int, Task>, ids: seq<int>, id: int, now: int)
    requires id in tasks && forall i | 0 <= i < |ids| :: ids[i] in tasks
    ensures Ranked(tasks, ids + [id], now) ==
            var before := Ranked(tasks, ids, now);
            before[id := before[id].(rank := Some(|ids|), updatedAt := now)]
    ensures RankedRows(tasks, ids + [id], now) ==
            RankedRows(tasks, ids, now) +
            [TaskRow(id, Ranked(tasks, ids, now)[id].(rank := Some(|ids|), updatedAt := now))]
  {
    var more := ids + [id];
    assert more[..|ids|] == ids;
    forall x | x in tasks ensures x in more <==> x in ids || x == id {
      assert forall i | 0 <= i < |ids| :: more[i] == ids[i];
      assert more[|ids|] == id;
    }
  }

  // `rows` are the stored rows of `ids`, in that order.
  ghost predicate Shows(rows: seq<TaskRow>, ids: seq<int>, tasks: map<int, Task>) {
    && |rows| == |ids|
    && forall i | 0 <= i < |ids| ::
         rows[i].id == ids[i] && ids[i] in tasks && rows[i].task == tasks[ids[i]]
  }

  lemma ShowsNothing(tasks: map<int, Task>)
    ensures Shows([], [], tasks)
  {
  }

  lemma ColumnsAre(tasks: map<int, Task>)
    ensures forall statuses :: Column(tasks, statuses) == Keep(GroomOrder(tasks), InStatus(tasks, statuses))
    ensures IN_FLIGHT == {InProgress, InReview, AwaitingTyler}
  {
    hide GroomOrder, InStatus;
  }

  // Which buckets a stored task belongs to.
  lemma StatusDecides(tasks: map<int, Task>, id: int)
    requires id in tasks
    ensures id in InStatus(tasks, {Backlog}) <==> tasks[id].status == Backlog
    ensures id in InStatus(tasks, {Planned}) <==> tasks[id].status == Planned
    ensures id in InStatus(tasks, IN_FLIGHT) <==> tasks[id].status in IN_FLIGHT
    ensures Backlog !in IN_FLIGHT && Planned !in IN_FLIGHT
  {
  }

  // One more row of the read, for one bucket.
  lemma NextShown(bucket: seq<TaskRow>, ids: seq<int>, i: nat, here: set<int>, tasks: map<int, Task>)
    requires i < |ids| && ids[i] in tasks && Shows(bucket, Keep(ids[..i], here), tasks)
    ensures Shows(if ids[i] in here then bucket + [TaskRow(ids[i], tasks[ids[i]])] else bucket,
                  Keep(ids[..i + 1], here), tasks)
  {
    hide Shows;
    assert ids[..i + 1] == ids[..i] + [ids[i]];
    KeepAppend(ids[..i], ids[i], here);
    if ids[i] in here { ShowsSnoc(bucket, Keep(ids[..i], here), TaskRow(ids[i], tasks[ids[i]]), tasks); }
  }

  lemma ShowsSnoc(rows: seq<TaskRow>, ids: seq<int>, row: TaskRow, tasks: map<int, Task>)
    requires Shows(rows, ids, tasks) && row.id in tasks && row.task == tasks[row.id]
    ensures Shows(rows + [row], ids + [row.id], tasks)
  {
  }

  lemma GroomOrderElements(tasks: map<int, Task>)
    ensures Elements(GroomOrder(tasks)) == tasks.Keys
  {
  }

  // A transaction that fails changes no table.
  lemma ErrorsKeepTables(s: State, t: Timed)
    ensures Step(s, t).reply.Err? ==> Step(s, t).state.db == s.db && Step(s, t).state.clock == t.now
  {
  }

  /** The database as other sessions see it; every command is one transaction. */
  class Store {
    var tasks: map<int, Task>
    var events: map<int, Event>
    var taskSeq: int
    var eventSeq: int
    var clock: int

    constructor (s: State)
      ensures View() == s
    {
      tasks, events := s.db.tasks, s.db.events;
      taskSeq, eventSeq, clock := s.taskSeq, s.eventSeq, s.clock;
    }

    function View(): State reads this {
      State(Db(tasks, events), taskSeq, eventSeq, clock)
    }

    // Commit on a clean exit, roll the tables back on any error.
    method Execute(t: Timed) returns (r: Reply)
      modifies this
      ensures View() == Step(old(View()), t).state
      ensures r == Step(old(View()), t).reply
      ensures r.Err? ==> tasks == old(tasks) && events == old(events)
    {
      var conn := new Conn(View(), t.now, t.known);
      ErrorsKeepTables(View(), t);
      match t.op {
        case Create(n, actor) =>
          r := conn.Create(n, actor);
        case CliUpdate(id, f, actor) =>
          if f.blockedReason.Some? && f.unblock {
            r := Err(Validation("--blocked-reason and --unblock are mutually exclusive"));
          } else {
            r := conn.Update(id, PatchOf(f), f.status, actor);
          }
        case Greenlight(id, actor) =>
          var current := conn.GetTask(id);
          if current.Err? {
            r := Err(current.error);
          } else if current.value.status != Backlog {
            r := Err(Validation("only a backlog task can be greenlit"));
          } else {
            r := conn.Update(id, NoPatch.(status := Some(Planned)), Some(Planned), actor);
          }
        case SetBlocked(id, reason, actor) =>
          r := conn.Update(id, NoPatch.(block := Some(Some(reason))), None, actor);
        case ClearBlocked(id, actor) =>
          r := conn.Update(id, NoPatch.(block := Some(None)), None, actor);
        case Reorder(ids) =>
          r := conn.Reorder(ids);
      }
      taskSeq, eventSeq, clock := conn.taskSeq, conn.eventSeq, t.now;
      if r.Ok? {
        tasks, events := conn.tasks, conn.events;
      }
    }
  }
}
