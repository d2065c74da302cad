/** What each task command stores and answers, field by field. */
module TaskLaws {
  import opened Prelude
  import opened Tasks

  // Every other task, the sequences and the clock after a command on one task.
  ghost predicate OnlyTouches(before: State, after: State, id: int, now: int) {
    && after.db.tasks.Keys == before.db.tasks.Keys && after.taskSeq == before.taskSeq && after.clock == now
    && forall x | x in before.db.tasks && x != id :: after.db.tasks[x] == before.db.tasks[x]
  }

  ghost predicate SameLog(before: State, after: State) {
    after.db.events == before.db.events && after.eventSeq == before.eventSeq
  }

  /** `task update` on a stored task: each flag that is given is stored in its own column,
      every other column keeps its value, the two blocked columns are written together,
      and an event is recorded exactly for a status that differs, with the acting role. */
  lemma CliUpdateExact(s: State, now: int, known: set<int>, id: int, f: Flags, actor: Option<string>)
    requires id in s.db.tasks && !(f.blockedReason.Some? && f.unblock)
    ensures var o := Step(s, Transaction(now, known, CliUpdate(id, f, actor)));
            && OnlyTouches(s, o.state, id, now)
            && var (was, row) := (s.db.tasks[id], o.state.db.tasks[id]);
               && o.reply == Ok([TaskRow(id, row)])
               && row.status == (if f.status.Some? then f.status.value else was.status)
               && row.role == (if f.role.Some? then f.role else was.role)
               && row.tier == (if f.tier.Some? then f.tier.value else was.tier)
               && row.prdRef == (if f.prdRef.Some? then f.prdRef else was.prdRef)
               && row.branch == (if f.branch.Some? then f.branch else was.branch)
               && row.dependsOn == (if f.dependsOn != [] then f.dependsOn else was.dependsOn)
               && (row.blocked, row.blockedReason) ==
                  (if f.unblock then (false, None)
                   else if f.blockedReason.Some? then (true, f.blockedReason) else (was.blocked, was.blockedReason))
               && row.project == was.project && row.title == was.title && row.spec == was.spec
               && row.rank == was.rank && row.createdAt == was.createdAt && row.updatedAt == now
               && if f.status.Some? && f.status.value != was.status
                  then
                    && o.state.eventSeq == s.eventSeq + 1
                    && o.state.db.events ==
                       s.db.events[s.eventSeq + 1 := Event(id, Some(was.status), f.status.value, actor, now)]
                  else SameLog(s, o.state)
  {
  }

  /** It is refused for both block flags at once, and then for an unknown task. */
  lemma CliUpdateRefused(s: State, now: int, known: set<int>, id: int, f: Flags, actor: Option<string>)
    requires id !in s.db.tasks || (f.blockedReason.Some? && f.unblock)
    ensures var o := Step(s, Transaction(now, known, CliUpdate(id, f, actor)));
            && o.state == s.(clock := now)
            && o.reply == Err(if f.blockedReason.Some? && f.unblock
                              then Validation("--blocked-reason and --unblock are mutually exclusive")
                              else NotFound("task", id))
  {
  }

  /** A creation draws the next id; in an existing project it stores what was given,
      defaults for the rest, and the opening event; in another it is a conflict. */
  lemma CreateExact(s: State, now: int, known: set<int>, n: NewTask, actor: Option<string>)
    ensures var o := Step(s, Transaction(now, known, Create(n, actor)));
            var id := s.taskSeq + 1;
            && o.state.taskSeq == id && o.state.clock == now
            && if n.project !in known
               then o.reply == Err(Conflict) && o.state.db == s.db && o.state.eventSeq == s.eventSeq
               else
                 && id in o.state.db.tasks && o.state.db.tasks == s.db.tasks[id := o.state.db.tasks[id]]
                 && var row := o.state.db.tasks[id];
                    && o.reply == Ok([TaskRow(id, row)])
                    && row.project == n.project && row.title == n.title && row.spec == n.spec
                    && row.role == n.role && row.prdRef == n.prdRef && row.branch == n.branch
                    && row.status == (if n.status.Some? then n.status.value else Backlog)
                    && row.tier == (if n.tier.Some? then n.tier.value else Execute)
                    && row.dependsOn == (if n.dependsOn.Some? then n.dependsOn.value else [])
                    && !row.blocked && row.blockedReason == None && row.rank == None
                    && row.createdAt == now && row.updatedAt == now
                    && o.state.eventSeq == s.eventSeq + 1
                    && o.state.db.events == s.db.events[s.eventSeq + 1 := Event(id, None, row.status, actor, now)]
  {
  }

  /** Greenlighting moves a backlog task, and no other, to planned, and says who did. */
  lemma GreenlightExact(s: State, now: int, known: set<int>, id: int, actor: Option<string>)
    ensures var o := Step(s, Transaction(now, known, Greenlight(id, actor)));
            if id !in s.db.tasks then o.state == s.(clock := now) && o.reply == Err(NotFound("task", id))
            else if s.db.tasks[id].status != Backlog
            then o.state == s.(clock := now) && o.reply == Err(Validation("only a backlog task can be greenlit"))
            else
              && OnlyTouches(s, o.state, id, now)
              && o.state.db.tasks[id] == s.db.tasks[id].(status := Planned, updatedAt := now)
              && o.reply == Ok([TaskRow(id, o.state.db.tasks[id])])
              && o.state.eventSeq == s.eventSeq + 1
              && o.state.db.events == s.db.events[s.eventSeq + 1 := Event(id, Some(Backlog), Planned, actor, now)]
  {
  }

  /** Blocking stores the very reason, unblocking removes it; neither is a status change. */
  lemma BlockExact(s: State, now: int, known: set<int>, id: int, reason: string, actor: Option<string>)
    ensures var (b, u) := (Step(s, Transaction(now, known, SetBlocked(id, reason, actor))),
                           Step(s, Transaction(now, known, ClearBlocked(id, actor))));
            if id !in s.db.tasks
            then b.state == u.state == s.(clock := now) && b.reply == u.reply == Err(NotFound("task", id))
            else
              && OnlyTouches(s, b.state, id, now) && OnlyTouches(s, u.state, id, now)
              && SameLog(s, b.state) && SameLog(s, u.state)
              && b.state.db.tasks[id] ==
                 s.db.tasks[id].(blocked := true, blockedReason := Some(reason), updatedAt := now)
              && u.state.db.tasks[id] == s.db.tasks[id].(blocked := false, blockedReason := None, updatedAt := now)
              && b.reply == Ok([TaskRow(id, b.state.db.tasks[id])])
              && u.reply == Ok([TaskRow(id, u.state.db.tasks[id])])
  {
  }

  /** A reorder of known ids ranks each by its last position and stamps it; the answer
      has one row for each mention, as that mention left it. Nothing else changes. */
  lemma ReorderStores(s: State, now: int, known: set<int>, ids: seq<int>, id: int)
    requires (forall x | x in ids :: x in s.db.tasks) && id in s.db.tasks
    ensures var o := Step(s, Transaction(now, known, Reorder(ids)));
            && o.state.db.tasks.Keys == s.db.tasks.Keys && SameLog(s, o.state)
            && o.state.taskSeq == s.taskSeq && o.state.clock == now
            && (id !in ids ==> o.state.db.tasks[id] == s.db.tasks[id])
            && (id in ids ==>
                  exists k | 0 <= k < |ids| ::
                    && ids[k] == id && (forall j | k < j < |ids| :: ids[j] != id)
                    && o.state.db.tasks[id] == s.db.tasks[id].(rank := Some(k), updatedAt := now))
            && o.reply.Ok? && |o.reply.value| == |ids|
            && forall i | 0 <= i < |ids| ::
                 o.reply.value[i] == TaskRow(ids[i], s.db.tasks[ids[i]].(rank := Some(i), updatedAt := now))
  {
    assert forall i | 0 <= i < |ids| :: ids[i] in ids;
    if id in ids { assert ids[LastIndex(ids, id)] == id; }
  }
}
