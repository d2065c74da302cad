/** The run log of emctl/repo/runs.py: starting, finishing and amending runs, and the
    stack discipline of `run finish --task`. */
module Runs {
  import opened Prelude
  import opened Ordering

  datatype RunOutcome = Succeeded | NegativeResult | Blocked | Failed

  datatype Tokens = Tokens(
    input: Option<int>, output: Option<int>, cacheRead: Option<int>, cacheWrite: Option<int>)

  datatype RunRow = RunRow(
    task: Option<int>, role: string, model: string, startedAt: int, endedAt: Option<int>,
    outcome: Option<RunOutcome>, tokenCost: Option<int>, costUsd: Option<real>,
    logRef: Option<string>, tokens: Tokens)

  // The optional figures of `run finish` and `run update`.
  datatype Figures = Figures(
    tokenCost: Option<int>, costUsd: Option<real>, logRef: Option<string>, tokens: Tokens)

  datatype State = State(runs: map<int, RunRow>, runSeq: int, clock: int)

  datatype Op =
    | Start(task: Option<int>, role: string, model: string)
    | Finish(run: Option<int>, ofTask: Option<int>, outcome: RunOutcome, figures: Figures)
    | Amend(id: int, newOutcome: Option<RunOutcome>, figures: Figures)

  // Those of a run, against the task ids.
  type Timed = Transaction<Op>

  type Reply = Result<int>
  datatype Outcome = Outcome(state: State, reply: Reply)

  const NoTokens := Tokens(None, None, None, None)

  // Each typed count is null or non-negative (CHECK constraints of migration 0004).
  predicate NonNegative(t: Tokens) {
    t.input.Or(0) >= 0 && t.output.Or(0) >= 0 && t.cacheRead.Or(0) >= 0 && t.cacheWrite.Or(0) >= 0
  }

  function Filled(row: RunRow, outcome: Option<RunOutcome>, f: Figures): RunRow {
    row.(outcome := Overlay(outcome, row.outcome),
         tokenCost := Overlay(f.tokenCost, row.tokenCost),
         costUsd := Overlay(f.costUsd, row.costUsd),
         logRef := Overlay(f.logRef, row.logRef),
         tokens := Tokens(Overlay(f.tokens.input, row.tokens.input),
                          Overlay(f.tokens.output, row.tokens.output),
                          Overlay(f.tokens.cacheRead, row.tokens.cacheRead),
                          Overlay(f.tokens.cacheWrite, row.tokens.cacheWrite)))
  }

  // ----- the open runs of a task, latest start first

  // An open run of this task.
  predicate IsOpen(run: RunRow, task: int) {
    run.task == Some(task) && run.endedAt.None?
  }

  function OpenIds(runs: map<int, RunRow>, task: int): set<int> {
    set id | id in runs && IsOpen(runs[id], task)
  }

  // ORDER BY started_at DESC, id DESC
  function StartKeys(runs: map<int, RunRow>): Keys {
    map id | id in runs :: (-runs[id].startedAt, -id)
  }

  function OpenRuns(runs: map<int, RunRow>, task: int): (s: seq<int>)
    ensures forall i | 0 <= i < |s| :: s[i] in OpenIds(runs, task)
  {
    var s := OrderBy(OpenIds(runs, task), StartKeys(runs));
    assert forall i | 0 <= i < |s| :: s[i] in Elements(s);
    s
  }

  // ----- the writes

  function StartRun(s: State, tasks: set<int>, task: Option<int>, role: string, model: string): Outcome {
    var id := s.runSeq + 1;
    var drawn := s.(runSeq := id);
    if task.Some? && task.value !in tasks then Outcome(drawn, Err(Conflict))
    else
      var row := RunRow(task, role, model, s.clock, None, None, None, None, None, NoTokens);
      Outcome(drawn.(runs := s.runs[id := row]), Ok(id))
  }

  function WriteRun(s: State, id: int, outcome: Option<RunOutcome>, f: Figures, stamp: bool): Outcome {
    if id !in s.runs then Outcome(s, Err(NotFound("run", id)))
    else
      var row := Filled(s.runs[id], outcome, f);
      if !NonNegative(row.tokens) then Outcome(s, Err(Validation("runs_tokens_nonneg")))
      else Outcome(s.(runs := s.runs[id := if stamp then row.(endedAt := Some(s.clock)) else row]), Ok(id))
  }

  function FinishRun(s: State, run: Option<int>, task: Option<int>, outcome: RunOutcome, f: Figures): Outcome {
    match run
    case Some(id) => WriteRun(s, id, Some(outcome), f, true)
    case None =>
      if task.None? then Outcome(s, Err(Validation("run finish requires --run or --task")))
      else
        var open := OpenRuns(s.runs, task.value);
        if open == [] then Outcome(s, Err(NotFound("open run of task", task.value)))
        else WriteRun(s, open[0], Some(outcome), f, true)
  }

  function Step(before: State, t: Timed): Outcome {
    var s := before.(clock := t.now);
    match t.op
    case Start(task, role, model) => StartRun(s, t.known, task, role, model)
    case Finish(run, task, outcome, f) => FinishRun(s, run, task, outcome, f)
    case Amend(id, outcome, f) => WriteRun(s, id, outcome, f, false)
  }

  function Run(s: State, ops: seq<Timed>): State
    decreases |ops|
  {
    if ops == [] then s else Run(Step(s, ops[0]).state, ops[1..])
  }

  // ----- the stack

  /** The simple machine: a stack of run ids per task. It knows neither rows nor
      clocks; `next` is the id a start would get. */
  function StackStep(stack: seq<int>, next: int, task: int, t: Timed): seq<int> {
    match t.op
    case Start(of, _, _) => if of == Some(task) && task in t.known then [next] + stack else stack
    case Finish(Some(id), _, _, f) => if NonNegative(f.tokens) then Without(stack, {id}) else stack
    case Finish(None, of, _, f) =>
      if of == Some(task) && NonNegative(f.tokens) && stack != [] then stack[1..] else stack
    case Amend(_, _, _) => stack
  }

  function StackRun(stack: seq<int>, next: int, task: int, ops: seq<Timed>): seq<int>
    decreases |ops|
  {
    if ops == [] then stack
    else StackRun(StackStep(stack, next, task, ops[0]),
                  if ops[0].op.Start? then next + 1 else next, task, ops[1..])
  }

  // Ids and start times handed out so far; stored counts passed their checks.
  ghost predicate Sound(s: State) {
    forall id | id in s.runs ::
      id <= s.runSeq && s.runs[id].startedAt <= s.clock && NonNegative(s.runs[id].tokens)
  }

  lemma StepKeepsSound(s: State, t: Timed)
    requires Sound(s) && s.clock <= t.now
    ensures Sound(Step(s, t).state)
    ensures Step(s, t).state.runSeq == s.runSeq + if t.op.Start? then 1 else 0
  {
    hide OpenRuns;
  }

  // Writing a row that stays open, or of another task, leaves the stack alone.
  lemma WriteOpen(runs: map<int, RunRow>, id: int, row: RunRow, task: int)
    requires id in runs && row.startedAt == runs[id].startedAt
    requires row.task == runs[id].task && row.endedAt.None? == runs[id].endedAt.None?
    ensures OpenRuns(runs[id := row], task) == OpenRuns(runs, task)
  {
    var after := runs[id := row];
    assert OpenIds(after, task) == OpenIds(runs, task);
    AgreeOrderBy(OpenIds(runs, task), StartKeys(runs), StartKeys(after));
  }

  // Stamping a row as ended takes it out of its stack.
  lemma WriteEnded(runs: map<int, RunRow>, id: int, row: RunRow, task: int)
    requires id in runs && row.startedAt == runs[id].startedAt && row.endedAt.Some?
    ensures OpenRuns(runs[id := row], task) == Without(OpenRuns(runs, task), {id})
  {
    var after := runs[id := row];
    var ids := OpenIds(runs, task);
    hide OrderBy, Without;
    assert OpenIds(after, task) == ids - {id};
    WithoutOrderBy(ids, StartKeys(runs), {id});
    AgreeOrderBy(ids - {id}, StartKeys(runs), StartKeys(after));
  }

  lemma WriteStarted(runs: map<int, RunRow>, id: int, row: RunRow, task: int)
    requires forall i | i in runs :: i < id && runs[i].startedAt <= row.startedAt
    requires row.endedAt.None?
    ensures OpenRuns(runs[id := row], task) ==
            if row.task == Some(task) then [id] + OpenRuns(runs, task) else OpenRuns(runs, task)
  {
    var after := runs[id := row];
    var ids := OpenIds(runs, task);
    assert OpenIds(after, task) == if row.task == Some(task) then ids + {id} else ids;
    assert forall i | i in ids :: Before(StartKeys(after), id, i);
    hide OrderBy, Before, OpenIds;
    AgreeOrderBy(ids, StartKeys(runs), StartKeys(after));
    if row.task == Some(task) { PrependOrderBy(ids, StartKeys(after), id); }
  }

  lemma FilledChecks(row: RunRow, outcome: Option<RunOutcome>, f: Figures)
    requires NonNegative(row.tokens)
    ensures NonNegative(Filled(row, outcome, f).tokens) <==> NonNegative(f.tokens)
  {
  }

  lemma OpenAreDistinct(runs: map<int, RunRow>, task: int)
    ensures var s := OpenRuns(runs, task); forall i, j | 0 <= i < j < |s| :: s[i] != s[j]
  {
    var s := OpenRuns(runs, task);
    forall i, j | 0 <= i < j < |s| ensures s[i] != s[j] { assert Before(StartKeys(runs), s[i], s[j]); }
  }

  lemma WithoutHead(s: seq<int>)
    requires s != [] && forall i, j | 0 <= i < j < |s| :: s[i] != s[j]
    ensures Without(s, {s[0]}) == s[1..]
  {
    WithoutNothing(s[1..], {s[0]});
  }

  lemma FinishPops(s: State, id: int, outcome: RunOutcome, f: Figures, task: int)
    requires Sound(s)
    ensures var o := WriteRun(s, id, Some(outcome), f, true);
            OpenRuns(o.state.runs, task) ==
            if NonNegative(f.tokens) then Without(OpenRuns(s.runs, task), {id}) else OpenRuns(s.runs, task)
  {
    hide OpenRuns;
    if id in s.runs {
      FilledChecks(s.runs[id], Some(outcome), f);
      WriteEnded(s.runs, id, Filled(s.runs[id], Some(outcome), f).(endedAt := Some(s.clock)), task);
    } else {
      Absent(s.runs, id, task);
    }
  }

  lemma Absent(runs: map<int, RunRow>, id: int, task: int)
    requires id !in runs
    ensures Without(OpenRuns(runs, task), {id}) == OpenRuns(runs, task)
  {
    WithoutNothing(OpenRuns(runs, task), {id});
  }

  lemma OtherTask(runs: map<int, RunRow>, task: int, other: int)
    requires OpenRuns(runs, other) != [] && task != other
    ensures Without(OpenRuns(runs, task), {OpenRuns(runs, other)[0]}) == OpenRuns(runs, task)
  {
    WithoutNothing(OpenRuns(runs, task), {OpenRuns(runs, other)[0]});
  }

  lemma StepIsStackStep(s: State, t: Timed, task: int)
    requires Sound(s) && s.clock <= t.now
    ensures OpenRuns(Step(s, t).state.runs, task) == StackStep(OpenRuns(s.runs, task), s.runSeq + 1, task, t)
  {
    hide OpenRuns;
    var s1 := s.(clock := t.now);
    match t.op
    case Start(of, role, model) =>
      var row := RunRow(of, role, model, t.now, None, None, None, None, None, NoTokens);
      WriteStarted(s.runs, s.runSeq + 1, row, task);
    case Finish(Some(id), _, outcome, f) =>
      FinishPops(s1, id, outcome, f, task);
    case Finish(None, of, outcome, f) =>
      if of.Some? && OpenRuns(s.runs, of.value) != [] {
        FinishPops(s1, OpenRuns(s.runs, of.value)[0], outcome, f, task);
        if of.value == task {
          OpenAreDistinct(s.runs, task);
          WithoutHead(OpenRuns(s.runs, task));
        } else {
          OtherTask(s.runs, task, of.value);
        }
      }
    case Amend(id, outcome, f) =>
      if id in s.runs {
        WriteOpen(s.runs, id, Filled(s.runs[id], outcome, f), task);
      }
  }

  /** Refinement, over every serial run: the open runs of a task, read with
      `started_at DESC, id DESC`, are the stack. A start pushes; a finish by task pops;
      a finish by id removes that run; an amendment does nothing. */
  lemma {:induction false} RunsAreAStack(s: State, ops: seq<Timed>, task: int)
    requires Sound(s) && Clocked(s.clock, ops)
    ensures OpenRuns(Run(s, ops).runs, task) == StackRun(OpenRuns(s.runs, task), s.runSeq + 1, task, ops)
    decreases |ops|
  {
    if ops != [] {
      hide Step, OpenRuns, StackStep;
      StepKeepsSound(s, ops[0]);
      ClockIs(s, ops[0]);
      StepIsStackStep(s, ops[0], task);
      RunsAreAStack(Step(s, ops[0]).state, ops[1..], task);
    }
  }

  lemma ClockIs(s: State, t: Timed)
    ensures Step(s, t).state.clock == t.now
  {
    hide OpenRuns;
  }

  // A finish by task whose figures pass the checks.
  predicate FinishesTask(t: Timed, task: int) {
    t.op.Finish? && t.op.run.None? && t.op.ofTask == Some(task) && NonNegative(t.op.figures.tokens)
  }

  /** Runs close last in, first out: finishing the task as often as it has open runs
      closes exactly those, the latest start first, each with the time of its own
      finish; nothing else is closed; and one more finish is not-found. */
  lemma {:induction false} FinishesCloseInOrder(s: State, ops: seq<Timed>, task: int, extra: Timed)
    requires Sound(s) && Clocked(s.clock, ops)
    requires (forall t | t in ops :: FinishesTask(t, task)) && FinishesTask(extra, task)
    requires |ops| == |OpenRuns(s.runs, task)|
    ensures var open, after := OpenRuns(s.runs, task), Run(s, ops);
            && after.runs.Keys == s.runs.Keys
            && (forall i | 0 <= i < |open| :: after.runs[open[i]].endedAt == Some(ops[i].now))
            && (forall id | id in s.runs && id !in open :: after.runs[id] == s.runs[id])
            && OpenRuns(after.runs, task) == []
            && Step(after, extra).reply == Err(NotFound("open run of task", task))
    decreases |ops|
  {
    var open := OpenRuns(s.runs, task);
    if ops != [] {
      var s' := Step(s, ops[0]).state;
      PopOnce(s, ops[0], task);
      StepKeepsSound(s, ops[0]);
      ClockIs(s, ops[0]);
      hide Step, OpenRuns;
      assert FinishesTask(ops[0], task);
      FinishesCloseInOrder(s', ops[1..], task, extra);
    }
  }

  lemma PopOnce(s: State, t: Timed, task: int)
    requires Sound(s) && s.clock <= t.now && FinishesTask(t, task) && OpenRuns(s.runs, task) != []
    ensures var open, after := OpenRuns(s.runs, task), Step(s, t).state;
            && OpenRuns(after.runs, task) == open[1..] && open[0] !in open[1..]
            && after.runs.Keys == s.runs.Keys
            && after.runs[open[0]].endedAt == Some(t.now)
            && forall id | id in s.runs && id != open[0] :: after.runs[id] == s.runs[id]
  {
    StepIsStackStep(s, t, task);
    OpenAreDistinct(s.runs, task);
    var id := OpenRuns(s.runs, task)[0];
    FilledChecks(s.runs[id], Some(t.op.outcome), t.op.figures);
    hide OpenRuns;
  }

  /** No step of any run reopens a run: an `ended_at` once set stays set, and an
      amendment does not even change it. */
  lemma EndedStaysEnded(s: State, t: Timed, id: int)
    requires Sound(s) && id in s.runs && s.runs[id].endedAt.Some?
    ensures id in Step(s, t).state.runs && Step(s, t).state.runs[id].endedAt.Some?
    ensures t.op.Amend? ==> Step(s, t).state.runs[id].endedAt == s.runs[id].endedAt
  {
    hide OpenRuns;
  }

  lemma {:induction false} EndedForGood(s: State, ops: seq<Timed>, id: int)
    requires Sound(s) && Clocked(s.clock, ops) && id in s.runs && s.runs[id].endedAt.Some?
    ensures id in Run(s, ops).runs && Run(s, ops).runs[id].endedAt.Some?
    decreases |ops|
  {
    if ops != [] {
      hide Step;
      EndedStaysEnded(s, ops[0], id);
      StepKeepsSound(s, ops[0]);
      ClockIs(s, ops[0]);
      EndedForGood(Step(s, ops[0]).state, ops[1..], id);
    }
  }

  // ----- the repository

  lemma FirstIsLatest(runs: map<int, RunRow>, task: int)
    ensures var s := OpenRuns(runs, task);
            && (s == [] ==> forall id | id in runs :: !IsOpen(runs[id], task))
            && (s != [] ==>
                  && s[0] in runs && IsOpen(runs[s[0]], task)
                  && forall id | id in runs && IsOpen(runs[id], task) && id != s[0] ::
                       || runs[id].startedAt < runs[s[0]].startedAt
                       || (runs[id].startedAt == runs[s[0]].startedAt && id < s[0]))
  {
    var s := OrderBy(OpenIds(runs, task), StartKeys(runs));
    assert s == OpenRuns(runs, task);
    forall id | id in runs && IsOpen(runs[id], task) ensures id in s {
      assert id in OpenIds(runs, task) && id in Elements(s);
    }
    forall id | id in runs && IsOpen(runs[id], task) && id != s[0]
      ensures runs[id].startedAt < runs[s[0]].startedAt ||
              (runs[id].startedAt == runs[s[0]].startedAt && id < s[0])
    {
      var i :| 0 <= i < |s| && s[i] == id;
      assert Before(StartKeys(runs), s[0], s[i]);
    }
  }

  class Store {
    var runs: map<int, RunRow>
    var runSeq: int
    var clock: int

    constructor (s: State)
      ensures View() == s
    {
      runs, runSeq, clock := s.runs, s.runSeq, s.clock;
    }

    function View(): State reads this { State(runs, runSeq, clock) }

    method LatestOpenRunId(task: int) returns (r: Result<int>)
      ensures r.Err? ==>
                r == Err(NotFound("open run of task", task)) && forall id | id in runs :: !IsOpen(runs[id], task)
      ensures r.Ok? ==>
                && r.value in runs && IsOpen(runs[r.value], task)
                && forall id | id in runs && IsOpen(runs[id], task) && id != r.value ::
                     || runs[id].startedAt < runs[r.value].startedAt
                     || (runs[id].startedAt == runs[r.value].startedAt && id < r.value)
      ensures r.Err? <==> OpenRuns(runs, task) == []
      ensures r.Ok? ==> r.value == OpenRuns(runs, task)[0]
    {
      var rows := OpenRuns(runs, task);
      FirstIsLatest(runs, task);
      if rows == [] { return Err(NotFound("open run of task", task)); }
      r := Ok(rows[0]);
    }

    // The column-to-value dict shared by finish and update, written in one UPDATE.
    method Write(id: int, outcome: Option<RunOutcome>, f: Figures, stamp: bool) returns (r: Reply)
      modifies this
      ensures r == WriteRun(old(View()), id, outcome, f, stamp).reply
      ensures View() == WriteRun(old(View()), id, outcome, f, stamp).state
    {
      if id !in runs { return Err(NotFound("run", id)); }
      var row := runs[id];
      if outcome.Some? { row := row.(outcome := outcome); }
      if f.tokenCost.Some? { row := row.(tokenCost := f.tokenCost); }
      if f.costUsd.Some? { row := row.(costUsd := f.costUsd); }
      if f.logRef.Some? { row := row.(logRef := f.logRef); }
      if f.tokens.input.Some? { row := row.(tokens := row.tokens.(input := f.tokens.input)); }
      if f.tokens.output.Some? { row := row.(tokens := row.tokens.(output := f.tokens.output)); }
      if f.tokens.cacheRead.Some? { row := row.(tokens := row.tokens.(cacheRead := f.tokens.cacheRead)); }
      if f.tokens.cacheWrite.Some? { row := row.(tokens := row.tokens.(cacheWrite := f.tokens.cacheWrite)); }
      assert row == Filled(runs[id], outcome, f);
      if !NonNegative(row.tokens) { return Err(Validation("runs_tokens_nonneg")); }
      runs := runs[id := if stamp then row.(endedAt := Some(clock)) else row];
      r := Ok(id);
    }

    method Execute(t: Timed) returns (r: Reply)
      modifies this
      ensures View() == Step(old(View()), t).state
      ensures r == Step(old(View()), t).reply
      ensures r.Err? ==> runs == old(runs)
    {
      clock := t.now;
      match t.op {
        case Start(task, role, model) =>
          runSeq := runSeq + 1;
          if task.Some? && task.value !in t.known { return Err(Conflict); }
          runs := runs[runSeq := RunRow(task, role, model, clock, None, None, None, None, None, NoTokens)];
          r := Ok(runSeq);
        case Finish(run, task, outcome, f) =>
          var id := run.Or(0);
          if run.None? {
            if task.None? { return Err(Validation("run finish requires --run or --task")); }
            var latest := LatestOpenRunId(task.value);
            if latest.Err? { return Err(latest.error); }
            id := latest.value;
          }
          r := Write(id, Some(outcome), f, true);
        case Amend(id, outcome, f) =>
          r := Write(id, outcome, f, false);
      }
    }
  }
}
