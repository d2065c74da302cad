/** The status history refines the status column: after any run of commands the
    events of a task, read back in `at, id` order, replay to its stored status. */
module TaskHistory {
  import opened Prelude
  import opened Ordering
  import opened Tasks

  /** A reader that follows the log event by event and gets stuck as soon as an
      event does not start where the previous one ended, or changes nothing. */
  datatype Replayed = Stuck | At(status: Option<Status>)

  function Replay(log: seq<Event>): Replayed {
    if log == [] then At(None)
    else
      var last := log[|log| - 1];
      match Replay(log[..|log| - 1])
      case Stuck => Stuck
      case At(cur) =>
        if last.from == cur && last.from != Some(last.to) then At(Some(last.to)) else Stuck
  }

  // The same said of the log as a whole.
  ghost predicate Chained(log: seq<Event>) {
    && (log != [] ==> log[0].from == None)
    && (forall i | 1 <= i < |log| :: log[i].from == Some(log[i - 1].to))
    && (forall i | 1 <= i < |log| :: log[i].to != log[i - 1].to)
  }

  lemma {:induction false} ReplayIffChained(log: seq<Event>)
    ensures Replay(log) != Stuck <==> Chained(log)
    ensures Chained(log) && log != [] ==> Replay(log) == At(Some(log[|log| - 1].to))
  {
    if log != [] {
      var init := log[..|log| - 1];
      ReplayIffChained(init);
      if Chained(init) {
        assert forall i | 0 <= i < |init| :: init[i] == log[i];
      } else {
        assert Chained(log) ==> Chained(init);
      }
    }
  }

  lemma ReplayAppend(log: seq<Event>, e: Event)
    ensures Replay(log + [e]) ==
            match Replay(log)
            case Stuck => Stuck
            case At(cur) => if e.from == cur && e.from != Some(e.to) then At(Some(e.to)) else Stuck
  {
    assert (log + [e])[..|log|] == log;
  }

  // ----- the invariant every command keeps

  ghost predicate Stamped(s: State) {
    && (forall e | e in s.db.events ::
          s.db.events[e].task in s.db.tasks && s.db.events[e].at <= s.clock && e <= s.eventSeq)
    && forall id | id in s.db.tasks :: id <= s.taskSeq
  }

  ghost predicate LogRefines(s: State) {
    forall id | id in s.db.tasks :: Refined(s, id)
  }

  ghost predicate Refined(s: State, id: int)
    requires id in s.db.tasks
  {
    Replay(History(s.db.events, id)) == At(Some(s.db.tasks[id].status))
  }

  // blocked and blocked_reason agree.
  ghost predicate BlockCoupled(s: State) {
    forall id | id in s.db.tasks :: s.db.tasks[id].blocked <==> s.db.tasks[id].blockedReason.Some?
  }

  ghost predicate Inv(s: State) {
    Stamped(s) && LogRefines(s) && BlockCoupled(s)
  }

  // Reading the log after an append by the running transaction.
  lemma EventOrderAppend(events: map<int, Event>, k: int, e: Event, id: int)
    requires forall i | i in events :: i < k && events[i].at <= e.at
    ensures EventOrder(events[k := e], id) ==
            EventOrder(events, id) + if id == e.task then [k] else []
  {
    var after := events[k := e];
    var ids := EventIds(events, id);
    assert EventIds(after, id) == if id == e.task then ids + {k} else ids;
    assert forall i | i in ids :: Before(EventKeys(after), i, k);
    hide OrderBy, Before, EventIds;
    AgreeOrderBy(ids, EventKeys(events), EventKeys(after));
    if id == e.task { AppendOrderBy(ids, EventKeys(after), k); }
  }

  lemma RowsAppend<T>(ids: seq<int>, more: seq<int>, table: map<int, T>, after: map<int, T>)
    requires forall i | 0 <= i < |ids| :: ids[i] in table && ids[i] in after && after[ids[i]] == table[ids[i]]
    requires forall i | 0 <= i < |more| :: more[i] in after
    ensures Rows(ids + more, after) == Rows(ids, table) + Rows(more, after)
  {
  }

  lemma HistoryAppend(events: map<int, Event>, k: int, e: Event, id: int)
    requires forall i | i in events :: i < k && events[i].at <= e.at
    ensures History(events[k := e], id) ==
            History(events, id) + if id == e.task then [e] else []
  {
    EventOrderAppend(events, k, e, id);
    RowsAppend(EventOrder(events, id), if id == e.task then [k] else [], events, events[k := e]);
  }

  lemma HistoryOfNobody(events: map<int, Event>, id: int)
    requires forall e | e in events :: events[e].task != id
    ensures History(events, id) == []
  {
    ElementsEmpty(EventOrder(events, id));
    assert forall e :: e !in EventIds(events, id);
  }

  lemma AddEventKeeps(s: State, e: Event)
    requires Stamped(s) && e.task in s.db.tasks && e.at == s.clock
    requires forall id | id in s.db.tasks && id != e.task :: Refined(s, id)
    requires Replay(History(s.db.events, e.task)) == At(e.from) && e.from != Some(e.to)
    requires s.db.tasks[e.task].status == e.to
    ensures Stamped(AddEvent(s, e)) && LogRefines(AddEvent(s, e))
  {
    hide History;
    var s' := AddEvent(s, e);
    forall id | id in s.db.tasks ensures Refined(s', id) {
      assert id != e.task ==> Refined(s, id);
      HistoryAppend(s.db.events, s.eventSeq + 1, e, id);
      ReplayAppend(History(s.db.events, id), e);
      assert History(s.db.events, id) + [] == History(s.db.events, id);
    }
  }

  lemma CreateKeeps(s: State, projects: set<int>, n: NewTask, actor: Option<string>)
    requires Inv(s)
    ensures Inv(CreateTask(s, projects, n, actor).state)
  {
    hide History;
    if n.project in projects {
      var id := s.taskSeq + 1;
      var t := Inserted(n, s.clock);
      var put := PutTask(s.(taskSeq := id), id, t);
      HistoryOfNobody(s.db.events, id);
      assert forall i | i in s.db.tasks :: Refined(s, i) ==> Refined(put, i);
      AddEventKeeps(put, Event(id, None, t.status, actor, s.clock));
    }
  }

  lemma UpdateKeeps(s: State, id: int, p: Patch, actor: Option<string>)
    requires Inv(s)
    ensures Inv(UpdateTask(s, id, p, p.status, actor).state)
  {
    if id in s.db.tasks {
      var stored := s.db.tasks[id];
      var put := PutTask(s, id, Patched(stored, p, s.clock));
      assert forall i | i in s.db.tasks && i != id :: Refined(s, i) ==> Refined(put, i);
      assert Refined(s, id);
      if p.status.Some? && p.status.value != stored.status {
        AddEventKeeps(put, Event(id, Some(stored.status), p.status.value, actor, s.clock));
      }
    }
  }

  lemma ReorderKeeps(s: State, ids: seq<int>)
    requires Inv(s)
    ensures Inv(ReorderTasks(s, ids).state)
  {
    var s' := ReorderTasks(s, ids).state;
    assert forall i | i in s.db.tasks :: Refined(s, i) ==> Refined(s', i);
  }

  lemma StepKeepsInv(s: State, t: Timed)
    requires Inv(s) && s.clock <= t.now
    ensures Inv(Step(s, t).state)
  {
    var s1 := s.(clock := t.now);
    assert forall i | i in s.db.tasks :: Refined(s, i) ==> Refined(s1, i);
    match t.op
    case Create(n, actor) => CreateKeeps(s1, t.known, n, actor);
    case CliUpdate(id, f, actor) => UpdateKeeps(s1, id, PatchOf(f), actor);
    case Greenlight(id, actor) => UpdateKeeps(s1, id, NoPatch.(status := Some(Planned)), actor);
    case SetBlocked(id, reason, actor) => UpdateKeeps(s1, id, NoPatch.(block := Some(Some(reason))), actor);
    case ClearBlocked(id, actor) => UpdateKeeps(s1, id, NoPatch.(block := Some(None)), actor);
    case Reorder(ids) => ReorderKeeps(s1, ids);
  }

  /** Whole runs: replaying the stored history rebuilds every status. */
  lemma {:induction false} RunKeepsInv(s: State, ops: seq<Timed>)
    requires Inv(s) && Clocked(s.clock, ops)
    ensures Inv(Run(s, ops))
    decreases |ops|
  {
    if ops != [] {
      StepKeepsInv(s, ops[0]);
      RunKeepsInv(Step(s, ops[0]).state, ops[1..]);
    }
  }

  // ----- the history answers questions about the past

  // The events up to and including time t, in reading order.
  function Until(log: seq<Event>, t: int): seq<Event> {
    if log == [] then []
    else if log[0].at <= t then [log[0]] + Until(log[1..], t)
    else Until(log[1..], t)
  }

  lemma {:induction false} UntilAppend(log: seq<Event>, e: Event, t: int)
    ensures Until(log + [e], t) == Until(log, t) + if e.at <= t then [e] else []
  {
    if log != [] {
      UntilAppend(log[1..], e, t);
      assert (log + [e])[1..] == log[1..] + [e];
    } else {
      assert [e][1..] == [];
    }
  }

  lemma {:induction false} UntilAll(log: seq<Event>, t: int)
    requires forall e | e in log :: e.at <= t
    ensures Until(log, t) == log
  {
    if log != [] { UntilAll(log[1..], t); }
  }

  // A step leaves the events alone or appends one stamped with its own now().
  lemma StepAppends(s: State, t: Timed)
    ensures var s' := Step(s, t).state;
            || s'.db.events == s.db.events
            || exists e: Event ::
                 s'.db.events == s.db.events[s.eventSeq + 1 := e] && e.at == t.now
  {
  }

  lemma StepKeepsPast(s: State, op: Timed, t: int, id: int)
    requires Inv(s) && s.clock <= op.now && t < op.now
    ensures Until(History(Step(s, op).state.db.events, id), t) == Until(History(s.db.events, id), t)
  {
    hide History;
    StepAppends(s, op);
    var s' := Step(s, op).state;
    if s'.db.events != s.db.events {
      var e: Event :| s'.db.events == s.db.events[s.eventSeq + 1 := e] && e.at == op.now;
      HistoryAppend(s.db.events, s.eventSeq + 1, e, id);
      var log := History(s.db.events, id);
      UntilAppend(log, e, t);
      assert Until(log, t) + [] == Until(log, t) && log + [] == log;
    }
  }

  lemma {:induction false} RunKeepsPast(s: State, ops: seq<Timed>, t: int, id: int)
    requires Inv(s) && Clocked(s.clock, ops)
    requires ops != [] ==> t < ops[0].now
    ensures Until(History(Run(s, ops).db.events, id), t) == Until(History(s.db.events, id), t)
    decreases |ops|
  {
    if ops != [] {
      StepKeepsPast(s, ops[0], t, id);
      StepKeepsInv(s, ops[0]);
      RunKeepsPast(Step(s, ops[0]).state, ops[1..], t, id);
    }
  }

  /** Time travel: cut the final history of any task at time t and replay it; the
      answer is the status the task had when the last transaction up to t had
      committed, whatever happened afterwards. */
  lemma HistoryAnswersThePast(s: State, later: seq<Timed>, t: int, id: int)
    requires Inv(s) && Clocked(s.clock, later)
    requires s.clock <= t && (later != [] ==> t < later[0].now)
    ensures Replay(Until(History(Run(s, later).db.events, id), t)) ==
            if id in s.db.tasks then At(Some(s.db.tasks[id].status)) else At(None)
  {
    RunKeepsPast(s, later, t, id);
    var log := History(s.db.events, id);
    UntilAll(log, t);
    if id !in s.db.tasks { HistoryOfNobody(s.db.events, id); }
  }

  // ----- databases older than the history table (migration 0003)

  // The synthetic event of the task visited e-th by the INSERT ... SELECT.
  function Synthetic(tasks: map<int, Task>, order: seq<int>, e: int, now: int): Event
    requires 1 <= e <= |order| && order[e - 1] in tasks
  {
    Event(order[e - 1], None, tasks[order[e - 1]].status, Some("backfill"), now)
  }

  function Backfilled(tasks: map<int, Task>, order: seq<int>, now: int): map<int, Event>
    requires Elements(order) == tasks.Keys
  {
    assert forall i | 0 <= i < |order| :: order[i] in Elements(order);
    map e | 1 <= e <= |order| :: Synthetic(tasks, order, e, now)
  }

  ghost predicate Distinct<T>(s: seq<T>) {
    forall i, j | 0 <= i < j < |s| :: s[i] != s[j]
  }

  lemma BackfillEstablishesLog(tasks: map<int, Task>, order: seq<int>, now: int)
    requires Elements(order) == tasks.Keys && Distinct(order)
    ensures forall id | id in tasks ::
              Replay(History(Backfilled(tasks, order, now), id)) == At(Some(tasks[id].status))
  {
    var events := Backfilled(tasks, order, now);
    forall id | id in tasks ensures Replay(History(events, id)) == At(Some(tasks[id].status)) {
      assert id in Elements(order);
      var i :| 0 <= i < |order| && order[i] == id;
      assert EventIds(events, id) == {i + 1};
      OrderByIs({i + 1}, EventKeys(events), [i + 1]);
      assert History(events, id) == [events[i + 1]];
      ReplayAppend([], events[i + 1]);
      assert [] + [events[i + 1]] == [events[i + 1]];
    }
  }

  /** So a database fresh from migration 0003, empty or with tasks, starts every run
      off right. */
  lemma UpgradedThenRuns(tasks: map<int, Task>, order: seq<int>, taskSeq: int, now: int, ops: seq<Timed>)
    requires Elements(order) == tasks.Keys && Distinct(order) && Clocked(now, ops)
    requires forall id | id in tasks :: id <= taskSeq && (tasks[id].blocked <==> tasks[id].blockedReason.Some?)
    ensures Inv(Run(State(Db(tasks, Backfilled(tasks, order, now)), taskSeq, |order|, now), ops))
  {
    BackfillEstablishesLog(tasks, order, now);
    assert forall i | 0 <= i < |order| :: order[i] in Elements(order);
    hide Replay, History;
    RunKeepsInv(State(Db(tasks, Backfilled(tasks, order, now)), taskSeq, |order|, now), ops);
  }
}
