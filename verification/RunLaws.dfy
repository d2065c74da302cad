/** What starting, finishing and amending a run stores and answers, field by field. */
module RunLaws {
  import opened Prelude
  import opened Runs

  // A figure that is given replaces the stored one; each goes to the field of its name.
  ghost predicate Takes(row: RunRow, was: RunRow, outcome: Option<RunOutcome>, f: Figures) {
    && row.outcome == (if outcome.Some? then outcome else was.outcome)
    && row.tokenCost == (if f.tokenCost.Some? then f.tokenCost else was.tokenCost)
    && row.costUsd == (if f.costUsd.Some? then f.costUsd else was.costUsd)
    && row.logRef == (if f.logRef.Some? then f.logRef else was.logRef)
    && row.tokens.input == (if f.tokens.input.Some? then f.tokens.input else was.tokens.input)
    && row.tokens.output == (if f.tokens.output.Some? then f.tokens.output else was.tokens.output)
    && row.tokens.cacheRead == (if f.tokens.cacheRead.Some? then f.tokens.cacheRead else was.tokens.cacheRead)
    && row.tokens.cacheWrite == (if f.tokens.cacheWrite.Some? then f.tokens.cacheWrite else was.tokens.cacheWrite)
    && row.task == was.task && row.role == was.role && row.model == was.model && row.startedAt == was.startedAt
  }

  // Each of the four counts is missing or not negative.
  ghost predicate Countable(row: RunRow) {
    && (row.tokens.input.Some? ==> row.tokens.input.value >= 0)
    && (row.tokens.output.Some? ==> row.tokens.output.value >= 0)
    && (row.tokens.cacheRead.Some? ==> row.tokens.cacheRead.value >= 0)
    && (row.tokens.cacheWrite.Some? ==> row.tokens.cacheWrite.value >= 0)
  }

  /** Starting draws the next id; for no task, or one that exists, it stores an open run
      of now without figures; for another it is a conflict. */
  lemma StartExact(s: State, now: int, known: set<int>, task: Option<int>, role: string, model: string)
    ensures var o := Step(s, Transaction(now, known, Start(task, role, model)));
            var id := s.runSeq + 1;
            && o.state.runSeq == id && o.state.clock == now
            && if task.Some? && task.value !in known then o.reply == Err(Conflict) && o.state.runs == s.runs
               else
                 && o.reply == Ok(id)
                 && o.state.runs == s.runs[id := RunRow(task, role, model, now, None, None, None, None, None,
                                                        Tokens(None, None, None, None))]
  {
  }

  // The outcome of writing one run: the new row under the checks, or an error.
  ghost predicate Writes(s: State, o: Outcome, now: int, id: int, outcome: Option<RunOutcome>, f: Figures,
                         stamp: bool)
  {
    && o.state.runSeq == s.runSeq && o.state.clock == now
    && if id !in s.runs then o.state.runs == s.runs && o.reply == Err(NotFound("run", id))
       else
         exists row :: Takes(row, s.runs[id], outcome, f)
           && row.endedAt == (if stamp then Some(now) else s.runs[id].endedAt)
           && if Countable(row) then o.state.runs == s.runs[id := row] && o.reply == Ok(id)
              else o.state.runs == s.runs && o.reply == Err(Validation("runs_tokens_nonneg"))
  }

  lemma WriteExact(s: State, now: int, id: int, outcome: Option<RunOutcome>, f: Figures, stamp: bool)
    requires s.clock == now
    ensures Writes(s, WriteRun(s, id, outcome, f, stamp), now, id, outcome, f, stamp)
  {
    if id in s.runs {
      var row := Filled(s.runs[id], outcome, f);
      row := if stamp then row.(endedAt := Some(now)) else row;
      assert Takes(row, s.runs[id], outcome, f);
    }
  }

  /** Finishing a run by id stores the outcome, the given figures and the time of its end;
      a negative count refuses all of it. */
  lemma FinishExact(s: State, now: int, known: set<int>, id: int, ofTask: Option<int>, outcome: RunOutcome, f: Figures)
    ensures Writes(s, Step(s, Transaction(now, known, Finish(Some(id), ofTask, outcome, f))), now, id, Some(outcome), f,
                   true)
  {
    WriteExact(s.(clock := now), now, id, Some(outcome), f, true);
    hide WriteRun;
    WritesFrom(s, WriteRun(s.(clock := now), id, Some(outcome), f, true), now, id, Some(outcome), f, true);
  }

  /** Amending stores what is given and leaves the end alone. */
  lemma AmendExact(s: State, now: int, known: set<int>, id: int, outcome: Option<RunOutcome>, f: Figures)
    ensures Writes(s, Step(s, Transaction(now, known, Amend(id, outcome, f))), now, id, outcome, f, false)
  {
    WriteExact(s.(clock := now), now, id, outcome, f, false);
    hide WriteRun;
    WritesFrom(s, WriteRun(s.(clock := now), id, outcome, f, false), now, id, outcome, f, false);
  }

  lemma WritesFrom(s: State, o: Outcome, now: int, id: int, outcome: Option<RunOutcome>, f: Figures, stamp: bool)
    requires Writes(s.(clock := now), o, now, id, outcome, f, stamp)
    ensures Writes(s, o, now, id, outcome, f, stamp)
  {
    hide Takes, Countable;
  }

  /** Finishing by task is finishing the latest open run of the task by id; without one,
      and without run or task, it is refused. */
  lemma FinishTaskExact(s: State, now: int, known: set<int>, task: Option<int>, outcome: RunOutcome, f: Figures)
    ensures var o := Step(s, Transaction(now, known, Finish(None, task, outcome, f)));
            if task.None?
            then o == Outcome(s.(clock := now), Err(Validation("run finish requires --run or --task")))
            else if forall id | id in s.runs :: s.runs[id].task != task || s.runs[id].endedAt.Some?
            then o == Outcome(s.(clock := now), Err(NotFound("open run of task", task.value)))
            else
              exists id | id in s.runs && s.runs[id].task == task && s.runs[id].endedAt.None? ::
                && (forall x | x in s.runs && s.runs[x].task == task && s.runs[x].endedAt.None? && x != id ::
                      || s.runs[x].startedAt < s.runs[id].startedAt
                      || (s.runs[x].startedAt == s.runs[id].startedAt && x < id))
                && o == Step(s, Transaction(now, known, Finish(Some(id), None, outcome, f)))
  {
    if task.Some? {
      FirstIsLatest(s.runs, task.value);
      var open := OpenRuns(s.runs, task.value);
      hide OpenRuns, WriteRun;
      assert forall id | id in s.runs ::
          IsOpen(s.runs[id], task.value) <==> s.runs[id].task == task && s.runs[id].endedAt.None?;
    }
  }
}
