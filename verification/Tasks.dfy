/** Tasks, their status history and the grooming ranks: the tables behind
    emctl/repo/tasks.py, emctl/repo/task_events.py, emctl/services.py,
    emctl/commands/task.py and command_center/routers/backlog.py.

    This module holds the tables and what each command does to them, as
    functions from the committed state; TaskStore.dfy holds the imperative
    repositories and proves them against these functions. */
module Tasks {
  import opened Prelude
  import opened Ordering

  datatype Status = Backlog | Planned | InProgress | InReview | AwaitingTyler | Done
  datatype Tier = Plan | Execute | Local

  datatype Task = Task(
    project: int, title: string, spec: Option<string>, status: Status,
    blocked: bool, blockedReason: Option<string>, role: Option<string>, tier: Tier,
    prdRef: Option<string>, branch: Option<string>, dependsOn: seq<int>,
    rank: Option<int>, createdAt: int, updatedAt: int)

  datatype Event = Event(
    task: int, from: Option<Status>, to: Status, actor: Option<string>, at: int)

  datatype TaskRow = TaskRow(id: int, task: Task)

  datatype Db = Db(tasks: map<int, Task>, events: map<int, Event>)

  /** The committed tables, the two id sequences (a sequence is not rolled back),
      and the time of the last transaction. */
  datatype State = State(db: Db, taskSeq: int, eventSeq: int, clock: int)

  type Reply = Result<seq<TaskRow>>
  datatype Outcome = Outcome(state: State, reply: Reply)

  // ----- what the commands take

  datatype NewTask = NewTask(
    project: int, title: string, spec: Option<string>, role: Option<string>,
    tier: Option<Tier>, prdRef: Option<string>, status: Option<Status>,
    branch: Option<string>, dependsOn: Option<seq<int>>)

  // The flags of `task update`; an empty dependsOn is an omitted flag.
  datatype Flags = Flags(
    status: Option<Status>, role: Option<string>, tier: Option<Tier>,
    prdRef: Option<string>, branch: Option<string>, dependsOn: seq<int>,
    blockedReason: Option<string>, unblock: bool)

  // The column-to-value dict handed to `tasks.update`.
  datatype Patch = Patch(
    status: Option<Status>, role: Option<string>, tier: Option<Tier>,
    prdRef: Option<string>, branch: Option<string>, dependsOn: Option<seq<int>>,
    block: Option<Option<string>>)  // (blocked, blocked_reason), always written together

  const NoPatch := Patch(None, None, None, None, None, None, None)

  datatype Op =
    | Create(row: NewTask, actor: Option<string>)
    | CliUpdate(id: int, flags: Flags, actor: Option<string>)
    | Greenlight(id: int, actor: Option<string>)
    | SetBlocked(id: int, reason: string, actor: Option<string>)
    | ClearBlocked(id: int, actor: Option<string>)
    | Reorder(ids: seq<int>)

  // The foreign keys of a task are checked against the project ids.
  type Timed = Transaction<Op>

  // ----- row writes

  function Inserted(n: NewTask, now: int): Task {
    Task(n.project, n.title, n.spec, n.status.Or(Backlog), false, None, n.role,
         n.tier.Or(Execute), n.prdRef, n.branch, n.dependsOn.Or([]), None, now, now)
  }

  function Patched(t: Task, p: Patch, now: int): Task {
    t.(status := p.status.Or(t.status),
       role := Overlay(p.role, t.role),
       tier := p.tier.Or(t.tier),
       prdRef := Overlay(p.prdRef, t.prdRef),
       branch := Overlay(p.branch, t.branch),
       dependsOn := p.dependsOn.Or(t.dependsOn),
       blocked := if p.block.Some? then p.block.value.Some? else t.blocked,
       blockedReason := if p.block.Some? then p.block.value else t.blockedReason,
       updatedAt := now)
  }

  function PatchOf(f: Flags): Patch {
    Patch(f.status, f.role, f.tier, f.prdRef, f.branch,
          if f.dependsOn == [] then None else Some(f.dependsOn),
          if f.unblock then Some(None)
          else if f.blockedReason.Some? then Some(f.blockedReason) else None)
  }

  function AddEvent(s: State, e: Event): State {
    s.(db := s.db.(events := s.db.events[s.eventSeq + 1 := e]), eventSeq := s.eventSeq + 1)
  }

  function PutTask(s: State, id: int, t: Task): State {
    s.(db := s.db.(tasks := s.db.tasks[id := t]))
  }

  // ----- the orchestrated writes

  function CreateTask(s: State, projects: set<int>, n: NewTask, actor: Option<string>): Outcome {
    var id := s.taskSeq + 1;
    var drawn := s.(taskSeq := id);
    if n.project !in projects then Outcome(drawn, Err(Conflict))
    else
      var t := Inserted(n, s.clock);
      Outcome(AddEvent(PutTask(drawn, id, t), Event(id, None, t.status, actor, s.clock)),
              Ok([TaskRow(id, t)]))
  }

  function UpdateTask(s: State, id: int, p: Patch, newStatus: Option<Status>,
                      actor: Option<string>): Outcome
  {
    if id !in s.db.tasks then Outcome(s, Err(NotFound("task", id)))
    else
      var stored := s.db.tasks[id];
      var t := Patched(stored, p, s.clock);
      var put := PutTask(s, id, t);
      Outcome(if newStatus.Some? && newStatus.value != stored.status
              then AddEvent(put, Event(id, Some(stored.status), newStatus.value, actor, s.clock))
              else put,
              Ok([TaskRow(id, t)]))
  }

  // The position at which `ids` mentions `id` for the last time.
  function LastIndex(ids: seq<int>, id: int): (k: nat)
    requires id in ids
    ensures k < |ids| && ids[k] == id
    ensures forall j | k < j < |ids| :: ids[j] != id
  {
    if ids[|ids| - 1] == id then |ids| - 1 else LastIndex(ids[..|ids| - 1], id)
  }

  function Ranked(tasks: map<int, Task>, ids: seq<int>, now: int): (r: map<int, Task>)
    ensures r.Keys == tasks.Keys
  {
    map id | id in tasks ::
      if id in ids then tasks[id].(rank := Some(LastIndex(ids, id)), updatedAt := now)
      else tasks[id]
  }

  // How many leading ids exist: |ids| when they all do, else the place of the
  // first one that does not.
  function KnownPrefix(ids: seq<int>, known: set<int>): (k: nat)
    ensures k <= |ids| && forall j | 0 <= j < k :: ids[j] in known
    ensures k < |ids| ==> ids[k] !in known
  {
    if ids == [] || ids[0] !in known then 0
    else
      var rest := KnownPrefix(ids[1..], known);
      assert forall j | 0 < j < rest + 1 :: ids[j] == ids[1..][j - 1];
      rest + 1
  }

  // Each returned row is the row as its own UPDATE left it, so a repeated id
  // comes back once per mention.
  function RankedRows(tasks: map<int, Task>, ids: seq<int>, now: int): seq<TaskRow>
    requires forall i | 0 <= i < |ids| :: ids[i] in tasks
  {
    seq(|ids|, i requires 0 <= i < |ids| =>
      TaskRow(ids[i], tasks[ids[i]].(rank := Some(i), updatedAt := now)))
  }

  function ReorderTasks(s: State, ids: seq<int>): Outcome {
    var k := KnownPrefix(ids, s.db.tasks.Keys);
    if k < |ids| then Outcome(s, Err(NotFound("task", ids[k])))
    else
      Outcome(s.(db := s.db.(tasks := Ranked(s.db.tasks, ids, s.clock))),
              Ok(RankedRows(s.db.tasks, ids, s.clock)))
  }

  // ----- one committed or rolled-back transaction

  function Step(before: State, t: Timed): Outcome {
    var s := before.(clock := t.now);
    match t.op
    case Create(n, actor) => CreateTask(s, t.known, n, actor)
    case CliUpdate(id, f, actor) =>
      if f.blockedReason.Some? && f.unblock
      then Outcome(s, Err(Validation("--blocked-reason and --unblock are mutually exclusive")))
      else UpdateTask(s, id, PatchOf(f), f.status, actor)
    case Greenlight(id, actor) =>
      if id !in s.db.tasks then Outcome(s, Err(NotFound("task", id)))
      else if s.db.tasks[id].status != Backlog
      then Outcome(s, Err(Validation("only a backlog task can be greenlit")))
      else UpdateTask(s, id, NoPatch.(status := Some(Planned)), Some(Planned), actor)
    case SetBlocked(id, reason, actor) =>
      UpdateTask(s, id, NoPatch.(block := Some(Some(reason))), None, actor)
    case ClearBlocked(id, actor) =>
      UpdateTask(s, id, NoPatch.(block := Some(None)), None, actor)
    case Reorder(ids) => ReorderTasks(s, ids)
  }

  function Run(s: State, ops: seq<Timed>): State
    decreases |ops|
  {
    if ops == [] then s else Run(Step(s, ops[0]).state, ops[1..])
  }

  // ----- reads

  function Rows<T>(ids: seq<int>, table: map<int, T>): seq<T>
    requires forall i | 0 <= i < |ids| :: ids[i] in table
  {
    seq(|ids|, i requires 0 <= i < |ids| => table[ids[i]])
  }

  function EventIds(events: map<int, Event>, task: int): set<int> {
    set e | e in events && events[e].task == task
  }

  function EventKeys(events: map<int, Event>): Keys {
    map e | e in events :: (events[e].at, 0)
  }

  function EventOrder(events: map<int, Event>, task: int): (s: seq<int>)
    ensures forall i | 0 <= i < |s| :: s[i] in events && events[s[i]].task == task
  {
    var s := OrderBy(EventIds(events, task), EventKeys(events));
    assert forall i | 0 <= i < |s| :: s[i] in Elements(s);
    s
  }

  // `task history`: ORDER BY at, id.
  function History(events: map<int, Event>, task: int): seq<Event> {
    Rows(EventOrder(events, task), events)
  }

  function GroomKeys(tasks: map<int, Task>): Keys {
    map id | id in tasks :: match tasks[id].rank case None => (1, 0) case Some(r) => (0, r)
  }

  // Ranked before unranked, by rank and then id; unranked by id.
  predicate GroomedBefore(a: int, rank: Option<int>, b: int, otherRank: Option<int>) {
    match (rank, otherRank)
    case (Some(r), Some(q)) => r < q || (r == q && a < b)
    case (Some(_), None) => true
    case (None, Some(_)) => false
    case (None, None) => a < b
  }

  // ORDER BY groom_rank ASC NULLS LAST, id ASC.
  function GroomOrder(tasks: map<int, Task>): seq<int> {
    OrderBy(tasks.Keys, GroomKeys(tasks))
  }

  function InStatus(tasks: map<int, Task>, statuses: set<Status>): set<int> {
    set id | id in tasks && tasks[id].status in statuses
  }

  // One column of the grooming board, top to bottom.
  function Column(tasks: map<int, Task>, statuses: set<Status>): seq<int> {
    Keep(GroomOrder(tasks), InStatus(tasks, statuses))
  }

  const IN_FLIGHT: set<Status> := {InProgress, InReview, AwaitingTyler}
}
