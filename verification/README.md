# The state store: a verified model

`emctl` keeps the state of a small engineering organisation (tasks, runs, pull
requests, decisions, debt, risks) in one SQL database. A command line and an HTTP API
write to it. This project models what those writes do and proves what every run of them
keeps. `dafny verify dfyconfig.toml` checks it.

- **Statements.** `Sql` is a small SQL with an evaluator, and the statement builder over
  it, `SqlLaws` what the statements do to rows; `Supply` are the dicts filled from optional
  flags. `TaskRows` and `PrRows` prove that the typed tables used by the other modules are
  the SQL rows, column by column; `Risks` works on the rows directly. `StoreSchema` proves
  that these tables have the columns and defaults that the migrations leave.
- **The store.** `Tasks`, `TaskLaws`, `TaskHistory`, `Board`, `BoardList` and `TaskStore`:
  tasks, their status history and the grooming board. `Approvals`, `ApprovalLaws`,
  `ApprovalQueue`, `MergeProtocol` and `ApprovalStore`: pull requests, artifacts, decisions
  and questions. `Runs` and `RunLaws`: the run log. `Debt`: the debt register. `Ordering`
  is `ORDER BY`.
- **Migrations.** `Schema`, `SchemaLaws` and `SchemaShape`: schema operations over
  arbitrary contents. `Migrations`, `RevisionSchemas` and `MigrationTheorems`: the
  migrations 0001 and 0003 to 0007. `SchemaFacts` says what each table and operation is,
  `FinalSchema` what the migrations leave in the end. `MigratedLog` puts a migrated
  database to use.
- **Algorithms.** `RepoRef` (repo references), `MetricText` (comment stripping and the
  metric validator), `UseApi` (the request hook of the front end), `Render` (tables and
  records), `Transcript` (token totals), `RelativeTime` (age labels). `Text` holds the
  Python string operations they share, `Prelude` optional values and errors.

Each state module has functions from state to state (`Step`, `Run`) that say what a
command does, lemmas about whole runs of them, and a class whose methods change fields
step by step, as the repository code does, and are proved equal to those functions. The
modules named `Laws` pin the functions themselves: what each command stores and answers,
column by column, with literal values and without the functions' own helpers. A
transaction that fails keeps the tables; sequences and outward calls are not rolled back.
Transactions are serial and `now()` never goes back.

Two statements one might expect do not hold, and are stated as they are:

- A repository whose own name ends in `.git` does not survive a printed reference unless
  another `.git` is printed after it, or `.git` is the whole name.
  `RepoRef.ParseUndoesPrint` gives the exact condition and the answer in both cases.
- A second merge of a pull request needs a rejection and then an approval in between as
  long as no `pr update --status` with a status other than merged goes through for that
  pull request (`MergeProtocol.RemergeNeedsRejectThenApprove`; other CLI commands do not
  matter, and the API has no such step). Every such update breaks it:
  `MergeProtocol.RemergesIff` says exactly which single commands let a merge be repeated,
  and `MergeProtocol.ReopenedRemerges` gives a run without rejection for each reopening.

## Model

| member | source | states |
|---|---|---|
| Sql.BuildInsert | emctl/repo/_sql.py:21-32 | the statement has as many placeholders as parameters; run on any table it inserts the dict over the column defaults, filed under the id the dict names or else the next one, or fails as a constraint, a taken or missing id, an unknown column or an empty dict does |
| Sql.BuildUpdate | emctl/repo/_sql.py:43-69 | same arity; for every value dict and every unbound extra assignment, running it patches exactly that id, reports a missing row, or, with nothing to write, only reads |
| Sql.BuildSelect | emctl/repo/_sql.py:72-89 | same arity; for every filter and order_by column that the table has, running it answers the rows that hold the filter's value in every column of the filter (a filter on NULL has none), each once, sorted on the column, and leaves the table alone |
| Sql.SelectExact | emctl/repo/_sql.py:72-89 | a row is selected exactly when for each column of the filter it has that column, the value is not NULL and the two are equal; each once, never descending in the server's order of the sort column, whatever it does with ties |
| Sql.SelectInIdOrder | emctl/repo/_sql.py:77 | the same rows, by default in strictly ascending id order |
| Sql.StaysNumbered | emctl/repo/_sql.py:21-69 | no statement, not even one that writes an id, leaves a row filed under another id than its own |
| Sql.OverReads | emctl/repo/_sql.py:43-69 | in a written row a column of the dict reads as the dict says, every other column as before |
| Sql.UpdateRuns | emctl/repo/_sql.py:55-69 | bound values go to their own columns although extras are spliced between the columns and the id |
| SqlLaws.InsertExact | emctl/repo/_sql.py:21-32 | the new row has the dict's values and in every other column its default: the next id, the literal, now(); it is filed under its id, nothing else changes, a refusal changes at most the sequence, and exactly when it is refused |
| SqlLaws.InsertRefused | emctl/repo/_sql.py:21-32 | an empty dict or an unknown column is an error |
| SqlLaws.UpdateExact | emctl/repo/_sql.py:43-69 | the written row has the dict's values, now() or NULL in the fixed columns, and its old value everywhere else; no other row changes |
| SqlLaws.UpdateEdges | emctl/repo/_sql.py:51-69 | a missing row is not-found; nothing to write is a read |
| Supply.OverNamed | emctl/repo/risks.py:35-45 | after writing a dict filled from optional flags, every column holds its flag if one was supplied and its old value if not |
| Supply.SuppliedTakes | emctl/repo/risks.py:35-45 | the dict takes each name's own value: exactly once if supplied, not at all if omitted |
| Supply.Collect | emctl/repo/risks.py:43-45 | the loop over the optional items adds exactly the supplied ones, in order |
| TaskRows.UpdateIsPatch | emctl/repo/tasks.py:49-52 | the UPDATE built for a typed patch turns the row of the task into the row of the patched task, stamps updated_at, touches no other row, and is not-found exactly for an unknown id |
| TaskRows.InsertIsCreate | emctl/repo/tasks.py:16-42 | the INSERT built for a new task gives the row of the new task with all column defaults, or a foreign-key violation that still draws the id |
| TaskRows.UpdateIsRank | emctl/repo/tasks.py:99-107 | one rank UPDATE changes rank and updated_at of that task only |
| TaskRows.CliValues | emctl/commands/task.py:63-83 | key by key which flag each column takes: status, role, model_tier, prd_ref and branch their own, depends_on only a non-empty list, blocked and blocked_reason together from either block flag, and no other column |
| TaskRows.RowReads | emctl/migrations/versions/0001_initial_v1_schema.py:54-115 | the SQL row of a task has each field in the column of that name, missing ones as NULL |
| TaskRows.TextsAre | emctl/enums.py:21-33 | the stored text of each status and tier |
| TaskRows.Repository.CreateTask | emctl/repo/tasks.py:16-42 | the statement run on the table leaves the table of the old tasks and the new one |
| TaskRows.Repository.UpdateTask | emctl/repo/tasks.py:49-52 | the statement run on the table leaves the table of the patched tasks |
| TaskRows.Repository.Reorder | emctl/repo/tasks.py:92-108 | the loop of UPDATEs over SQL rows ends in the table of the ranked tasks and returns their rows, or names the first unknown id |
| PrRows.UpdateIsChange | emctl/repo/prs.py:61-87 | the UPDATE means the typed patch of the pull request; decided_at is stamped exactly when a decision is written; no argument means no change |
| PrRows.ChangeTakes | emctl/repo/prs.py:72-87 | key by key which argument each column takes, and decided_at = now() exactly with a decision |
| PrRows.RowReads | emctl/migrations/versions/0001_initial_v1_schema.py:144-176 | the SQL row of a pull request has each field in the column of that name |
| PrRows.Repository.Update | emctl/repo/prs.py:61-87 | the values and extras filled step by step are those of that patch |
| Risks.Repository.AddRisk | emctl/repo/risks.py:15-63 | the plain or the hand-built INSERT means one insertion, with resolved_at = now() exactly when the risk opens already resolved |
| Risks.Repository.UpdateRiskRow | emctl/repo/risks.py:70-99 | the update writes the supplied columns and sets, clears or leaves resolved_at by the new status |
| Risks.AddTakes | emctl/repo/risks.py:29-45 | key by key which argument each column of a new risk takes |
| Risks.UpdateTakes | emctl/repo/risks.py:79-87 | and of an update |
| Risks.HandBuiltRuns | emctl/repo/risks.py:53-63 | the hand-built INSERT with one more column and now() consumes exactly the dict's values |
| Risks.AddKeepsCoupled | emctl/repo/risks.py:46-63 | resolved_at is set exactly while a risk is not acknowledged: kept by adding |
| Risks.UpdateKeepsCoupled | emctl/repo/risks.py:88-99 | and by updating, reopening included |
| Risks.RunKeepsCoupled | emctl/repo/risks.py:15-99 | hence true after any run of both |
| Ordering.OrderBy | emctl/repo/tasks.py:75-89 | lists exactly the given rows, each once, in order of key and then id |
| Ordering.AscendingUnique | emctl/repo/tasks.py:75-89 | an order by key and id determines the listing |
| TaskHistory.ReplayIffChained | emctl/repo/task_events.py:35-40 | a log replays without getting stuck exactly when it starts from nothing, every event starts where the last one ended, and none is empty |
| TaskHistory.HistoryAppend | emctl/repo/task_events.py:20-40 | an event added at the latest time reads back last, in the log of its own task only |
| TaskHistory.StepKeepsInv | emctl/services.py:23-85 | every create, update, greenlight, block, unblock and reorder keeps: each log replays to the stored status, and blocked holds exactly when there is a reason |
| TaskHistory.RunKeepsPast | emctl/repo/task_events.py:35-40 | later commands never change what a log said up to an earlier time |
| TaskHistory.RunKeepsInv | emctl/services.py:23-85 | the same over whole runs of all six commands |
| TaskHistory.HistoryAnswersThePast | emctl/repo/task_events.py:35-40 | the final log cut at any past time replays to the status the task had then, whatever came later |
| TaskHistory.BackfillEstablishesLog | emctl/migrations/versions/0003_observability_v2.py:156-163 | the backfill gives every older task a log that replays to its status, in whatever order the tasks are visited |
| TaskHistory.UpgradedThenRuns | emctl/migrations/versions/0003_observability_v2.py:156-163 | so tasks with that log, or none at all, keep the invariant from then on |
| MigratedLog.StoredLogIs | emctl/migrations/versions/0003_observability_v2.py:156-163 | the task_events rows that the migration stores are, column by column, the rows of that log and of no other |
| MigratedLog.MigratedStoreRuns | emctl/migrations/versions/0003_observability_v2.py:45-163 | whatever tasks and history the store reads from a valid database of 0001 upgraded by 0003, every later run keeps the two in step |
| StoreSchema.TaskTableIsMigrated | emctl/migrations/versions/0005_task_groom_rank.py:34-35 | after all upgrades the tasks table has exactly the columns that the store writes, with the same defaults |
| StoreSchema.PrTableIsMigrated | emctl/migrations/versions/0007_decision_audit_note.py:40-42 | so has the prs table its columns |
| StoreSchema.RiskTableIsMigrated | emctl/migrations/versions/0003_observability_v2.py:85-129 | and the risks table its columns and defaults |
| Tasks.LastIndex | emctl/repo/tasks.py:99-107 | of repeated ids the last index wins |
| Tasks.KnownPrefix | emctl/repo/tasks.py:99-107 | how far the loop gets: up to the first unknown id |
| TaskLaws.CliUpdateExact | emctl/commands/task.py:63-95 | what `task update` stores in every column: each flag's own value or the old one, both block columns together, updated_at, and an event by the acting role exactly when the status differs; no other task changes |
| TaskLaws.CliUpdateRefused | emctl/commands/task.py:64-65 | both block flags at once are a validation error before anything else, an unknown id is not-found; nothing changes |
| TaskLaws.CreateExact | emctl/services.py:23-58 | the new row has the given values, the defaults for the rest and an opening event by the actor; an unknown project is a conflict that still draws the id |
| TaskLaws.GreenlightExact | command_center/routers/backlog.py:46-62 | exactly a backlog task becomes planned, with its event; others are refused |
| TaskLaws.BlockExact | command_center/routers/backlog.py:65-98 | the very reason is stored, and taken away again; no event |
| TaskLaws.ReorderStores | emctl/repo/tasks.py:92-108 | each listed task gets the index of its last mention and a new updated_at, the others nothing; the answer has one row a mention |
| Board.ReorderThenShow | emctl/repo/tasks.py:75-108 | sending any arrangement of one column makes the next read show exactly it, whatever stale ranks there are; the other columns read as before |
| Board.ListedFollowIds | emctl/repo/tasks.py:92-108 | for any list of ids, repeated or partial, the listed tasks of a column come in the order of their last mention |
| Board.UnlistedStay | emctl/repo/tasks.py:92-108 | the tasks that are not listed keep their order among themselves |
| Board.ArrowSwapsNeighbours | command_center/frontend/src/views/Backlog.tsx:41-51 | an arrow swaps exactly two neighbours on the next read, and other columns stay |
| Board.ReorderExact | emctl/repo/tasks.py:92-108 | reorder succeeds exactly when every id exists; otherwise nothing changes and the first unknown id is named |
| BoardList.BoardIsAList | command_center/routers/backlog.py:27-108 | over every run of creations, updates, greenlights, blocks, unblocks and reorders, partial and repeated lists included, each column is what one list of cards shows: a creation appends, a status is written in place, a reorder merges the newly ranked cards with the others |
| BoardList.StepIsCardStep | emctl/repo/tasks.py:75-108 | the same of one command |
| BoardList.ReorderMerges | emctl/repo/tasks.py:92-108 | after a reorder the listed tasks, by last mention, are merged with the unlisted ones, in their old order, by rank |
| BoardList.ColumnIsShown | command_center/routers/backlog.py:27-43 | a column shows the ids of the cards of its statuses, in the order of the list |
| Board.CreateAppends | emctl/repo/tasks.py:75-89 | a new task joins its column at the bottom |
| Board.UpdateMovesOnlyItself | command_center/routers/backlog.py:46-98 | no update moves any other task on the board |
| TaskStore.Conn.Reorder | emctl/repo/tasks.py:92-108 | the loop writes the ranks of all ids, or reports the first unknown one |
| TaskStore.Conn.Create | emctl/services.py:23-58 | row, then opening event |
| TaskStore.Conn.Update | emctl/services.py:61-85 | the status read before the write decides whether an event is recorded and where it starts |
| TaskStore.Conn.InsertTask | emctl/repo/tasks.py:16-42 | the next id is drawn in any case; the row appears only for an existing project |
| TaskStore.Conn.PatchTask | emctl/repo/tasks.py:49-52 | that row is patched, all else stays, or not-found |
| TaskStore.Conn.ListForGroom | emctl/repo/tasks.py:75-89 | exactly the tasks, or those of the status asked for, each once: ranked before unranked, by rank and then id, unranked by id |
| TaskStore.Conn.RecordEvent | emctl/repo/task_events.py:19-32 | the event is stored under the next id at now() |
| TaskStore.Conn.Board | command_center/routers/backlog.py:24-43 | a stored task is in backlog exactly if its status is backlog, in planned if planned, in in_flight if in progress, in review or awaiting Tyler, and nowhere if done; each once; ranked before unranked, by rank and then id, unranked by id |
| TaskStore.Conn.TaskHistory | emctl/commands/task.py:99-104 | not-found for an unknown task, else exactly its stored events, each once, by time and then id |
| TaskStore.Store.Execute | emctl/db.py:23-43 | each command commits its whole effect or, on any error, leaves the tables as they were |
| ApprovalQueue.QueueShows | command_center/routers/approvals.py:82-142 | listed, each once: exactly the open PRs without a decision, the proposed artifacts, the proposed decisions and the unanswered blocking questions, in this order of kinds and by id within each |
| ApprovalQueue.StepMovesOnlyItsItem | command_center/routers/approvals.py:235-284 | every API and CLI step leaves all other items in their order |
| ApprovalQueue.RulingRemovesItsItem | command_center/routers/approvals.py:235-284 | deciding or answering removes exactly that item |
| ApprovalQueue.RulingsRemoveTheirItems | command_center/routers/approvals.py:235-284 | any sequence of rulings, repetitions included, removes exactly the items ruled on |
| ApprovalQueue.QueueDrains | command_center/routers/approvals.py:82-142 | once every item has been ruled on, the queue is empty |
| ApprovalQueue.RunMovesOnlyItsItems | command_center/routers/approvals.py:82-142 | over any run of API and CLI commands, the items that no step names keep their order in the queue, and none joins it |
| ApprovalQueue.NewItemsComeLast | command_center/routers/approvals.py:82-142 | items created since some state come, within their kind, after all that were there |
| ApprovalQueue.DecidedForGood | emctl/enums.py:108-111 | no step of any run brings a decided item back |
| ApprovalQueue.RunKeepsCoupled | emctl/repo/prs.py:83-87 | decided_at of a PR, decided_at of an artifact and answered_at are set exactly with their decision, verdict and answer, in every reachable state |
| ApprovalStore.Store.ListQueue | command_center/routers/approvals.py:82-142 | the four loops build exactly the items of the queue, with their titles and badges |
| ApprovalStore.ProposedItems | command_center/routers/approvals.py:103-115 | the loop over all artifacts keeps the proposed ones in order |
| ApprovalStore.ItemsFor | command_center/routers/approvals.py:89-100 | one item for each row, in order |
| ApprovalStore.Store.Decide | command_center/routers/approvals.py:235-273 | what each ruling stores: approve or reject with its time, and rejected as status, for a PR; approved or rejected with its time for an artifact; accepted or reversed for a decision; the note only if given; nothing else changes, and an unknown id is not-found |
| ApprovalLaws.DecidePrExact | command_center/routers/approvals.py:243-256 | the same of the typed step for a PR: decision, time, status only on rejection, note |
| ApprovalLaws.DecideDecisionExact | emctl/repo/decisions.py:57-70 | accepted on approval, reversed on rejection, the note only if given |
| ApprovalLaws.ArtifactDecideExact | emctl/repo/artifacts.py:33-42 | each verdict's own status, the time, notes only if given |
| ApprovalLaws.AnswerExact | emctl/repo/questions.py:24-28 | the very text and its time |
| ApprovalLaws.PrOpenExact | emctl/repo/prs.py:15-34 | a PR opens undecided and open unless a status is given; a second one of that number in the project, or an unknown project or task, is a conflict |
| ApprovalLaws.PrUpdateExact | emctl/repo/prs.py:61-87 | each flag goes to its own column, a decision with its time, the rest stays |
| ApprovalLaws.MergeRefusals | command_center/routers/approvals.py:162-193 | which guard of the merge route fails first, its own error or message, and what success stores and answers |
| ApprovalLaws.ArtifactCreateExact | emctl/repo/artifacts.py:15-30 | a new artifact is proposed and undecided |
| ApprovalLaws.DecisionAddExact | emctl/repo/decisions.py:14-34 | a new decision is accepted unless another status is given |
| ApprovalLaws.SupersedeExact | emctl/repo/decisions.py:37-54 | the old decision points at the new one; never at itself, nor at one that is not there |
| ApprovalLaws.QuestionAddExact | emctl/repo/questions.py:15-21 | a new question is unanswered |
| ApprovalLaws.CardReads | command_center/routers/approvals.py:88-142 | title, badge and details of a card of each kind; a PR without a summary by its number, mockups and diagrams badged alike |
| ApprovalStore.Store.AnswerBlocking | command_center/routers/approvals.py:276-284 | the answer and its time are stored, or not-found |
| ApprovalStore.Store.MergePullRequest | command_center/routers/approvals.py:162-193 | the guards in order, one outward call, the status write, and GitHub's sha and message in the answer, as in the typed step |
| ApprovalStore.Store.OpenPullRequest | emctl/repo/prs.py:15-34 | a new PR under the next id, or a conflict |
| ApprovalStore.Store.UpdatePullRequest | emctl/repo/prs.py:61-87 | the patched row, not-found or a conflict |
| ApprovalStore.Store.RuleOnArtifact | emctl/repo/artifacts.py:33-42 | verdict, time and notes, or not-found |
| MergeProtocol.CallsAreGuarded | command_center/routers/approvals.py:169-181 | an outward call is made once, by the merge route only, and exactly in a state where the PR is approved, not merged and its repo can be read; it names that repo and number |
| MergeProtocol.MergeWritesIff | command_center/routers/approvals.py:181-193 | merged is written, and success answered with the reported sha and message, exactly when the call reported a merge; otherwise every table is unchanged |
| MergeProtocol.RemergeNeedsReopenOrRuling | command_center/routers/approvals.py:162-256 | in any run, API and CLI mixed, between two successful merges of one PR a `pr update` wrote another status over merged, or there is a rejection and then an approval by either front end |
| MergeProtocol.RemergeNeedsRejectThenApprove | command_center/routers/approvals.py:162-256 | so where no such update goes through in between, there is a rejection and then an approval |
| MergeProtocol.ApiNeverReopens | command_center/routers/approvals.py:235-256 | no API step is such an update |
| MergeProtocol.RemergesIff | emctl/commands/pr.py:39-59 | from every callable state and for every command in between: merge, command, merge succeeds twice exactly when the command is such an update that leaves or writes the approval |
| MergeProtocol.ReopenedRemerges | emctl/commands/pr.py:39-59 | and every such update at all, whatever its other flags, allows a second merge without a rejection |
| Runs.RunsAreAStack | emctl/repo/runs.py:39-85 | over every run of commands the open runs of a task behave as a stack that starts push and finishes pop |
| Runs.FinishesCloseInOrder | emctl/repo/runs.py:48-85 | as many finishes as open runs close exactly those, latest start first, each with its own time, and one more is not-found |
| Runs.EndedStaysEnded | emctl/repo/runs.py:59-114 | no step clears ended_at, and update never changes it |
| Runs.EndedForGood | emctl/repo/runs.py:39-114 | over whole runs |
| RunLaws.StartExact | emctl/repo/runs.py:39-45 | a run opens under the next id at now(), without figures; an unknown task is a conflict |
| RunLaws.FinishExact | emctl/repo/runs.py:59-85 | each given figure goes to its own column, the outcome and the end are stored; a negative count refuses all of it |
| RunLaws.AmendExact | emctl/repo/runs.py:88-114 | the same without an end |
| RunLaws.FinishTaskExact | emctl/commands/run.py:53-85 | finishing by task is finishing its open run that started last (by larger id among equals); without one not-found, without run and task refused |
| Runs.Store.LatestOpenRunId | emctl/repo/runs.py:48-56 | the run returned is open and of this task, and no other open one started later, or at the same time with a larger id; not-found exactly when none is open |
| Runs.Store.Write | emctl/repo/runs.py:73-114 | only supplied figures are written; a negative token count fails the write |
| Runs.Store.Execute | emctl/repo/runs.py:39-114 | each command is one step, and an error keeps the rows |
| Debt.MergeExact | emctl/repo/debt.py:49-72 | exactly when a merge succeeds; on any error nothing changes, and the error is that of the first check that fails, for the duplicates that of the first offending id |
| Debt.MergeResolves | emctl/repo/debt.py:56-72 | a merge resolves every duplicate with a pointer to the keeper, bumps the keeper by their number and leaves all other items alone |
| Debt.ResolvedForGood | emctl/repo/debt.py:16-72 | no run of commands reopens a resolved item |
| Debt.StepAccounts | emctl/repo/debt.py:16-72 | what one command adds to the item count, to the total recurrence and to each counter |
| Debt.RecurrenceIsConserved | emctl/repo/debt.py:16-72 | over whole runs total recurrence is items filed plus duplicates merged in, and each counter is one plus what was merged into it |
| Debt.AddExact | emctl/repo/debt.py:16-36 | a new item is open, seen once, under the next id; an unknown project is a conflict |
| Debt.ResolveExact | emctl/repo/debt.py:39-46 | the item is resolved with this reference, or not-found |
| Debt.Store.MergeRows | emctl/repo/debt.py:49-72 | the loop over the duplicates, stopped by the first bad id |
| Debt.Store.ResolveRow | emctl/repo/debt.py:39-46 | one item is resolved, or not-found |
| Debt.Store.Execute | emctl/db.py:23-43 | commit, or the rows are put back |
| SchemaLaws.UndoRestores | emctl/migrations/versions/0004_token_accounting.py:51-65 | undoing a schema addition restores the database whatever its rows |
| SchemaLaws.UndoAllRestores | emctl/migrations/versions/0004_token_accounting.py:51-65 | and undoing a whole list of them, last first |
| SchemaLaws.StepHolds | emctl/migrations/versions/0003_observability_v2.py:45-180 | no operation that succeeds leaves a NOT NULL, CHECK, UNIQUE or foreign-key violation behind |
| SchemaLaws.AllPreserve | emctl/migrations/versions/0003_observability_v2.py:45-180 | additions keep every stored value; drops change none of those they leave |
| SchemaShape.SafeSucceeds | emctl/migrations/versions/0003_observability_v2.py:45-84 | additions whose defaults meet their own constraints succeed over arbitrary rows |
| SchemaShape.DropsByShape | emctl/migrations/versions/0003_observability_v2.py:166-180 | whether drops succeed depends on the schema alone |
| SchemaFacts.RowOkIff | emctl/migrations/versions/0001_initial_v1_schema.py:27-408 | when a row meets NOT NULL, foreign keys, vocabularies and counts, NULL passing the last three |
| SchemaFacts.UniqueOkIff | emctl/migrations/versions/0001_initial_v1_schema.py:144-176 | a unique key tells rows apart unless NULL is in it |
| SchemaFacts.HoldsIff | emctl/migrations/versions/0001_initial_v1_schema.py:27-408 | a database is valid exactly when every row and every unique key is |
| SchemaFacts.CreateTableExact | emctl/migrations/versions/0003_observability_v2.py:85-129 | when CREATE TABLE succeeds, and the empty table it leaves |
| SchemaFacts.DropTableExact | emctl/migrations/versions/0003_observability_v2.py:166-173 | refused exactly while another table refers to it; its indexes go too |
| SchemaFacts.AddColumnExact | emctl/migrations/versions/0003_observability_v2.py:48-83 | when ADD COLUMN succeeds; old rows get its literal default or NULL |
| SchemaFacts.DropColumnExact | emctl/migrations/versions/0003_observability_v2.py:174-180 | a column goes with its values, checks, keys and index, and nothing else |
| SchemaFacts.AddCheckExact | emctl/migrations/versions/0004_token_accounting.py:47-57 | refused exactly if a stored value breaks it |
| SchemaFacts.DropCheckExact | emctl/migrations/versions/0003_observability_v2.py:174-180 | asks only that it is there |
| SchemaFacts.IndexesExact | emctl/migrations/versions/0001_initial_v1_schema.py:389-408 | an index needs its column; dropping it needs it there |
| Migrations.DowngradeUndoes | emctl/migrations/versions/0001_initial_v1_schema.py:411-429 | each downgrade but that of 0003 is its upgrade undone, last operation first |
| Migrations.AlterUndone | emctl/migrations/versions/0003_observability_v2.py:174-180 | so are the column and constraint drops of 0003 |
| RevisionSchemas.SchemasExist | emctl/migrations/versions/0001_initial_v1_schema.py:27-408 | the upgrades apply in sequence, no foreign key or index naming a table or column that is not there |
| SchemaFacts.ProjectsTable | emctl/migrations/versions/0001_initial_v1_schema.py:30-53 | columns, which may be NULL, foreign keys, defaults, vocabularies and unique keys of projects |
| SchemaFacts.TasksTable | emctl/migrations/versions/0001_initial_v1_schema.py:54-115 | columns, which may be NULL, foreign keys, defaults, vocabularies and unique keys of tasks |
| SchemaFacts.RunsTable | emctl/migrations/versions/0001_initial_v1_schema.py:116-143 | columns, which may be NULL, foreign keys, defaults, vocabularies and unique keys of runs |
| SchemaFacts.PrsTable | emctl/migrations/versions/0001_initial_v1_schema.py:144-176 | columns, which may be NULL, foreign keys, defaults, vocabularies and unique keys of prs |
| SchemaFacts.ReviewsTable | emctl/migrations/versions/0001_initial_v1_schema.py:177-204 | columns, which may be NULL, foreign keys, defaults, vocabularies and unique keys of reviews |
| SchemaFacts.QuestionsTable | emctl/migrations/versions/0001_initial_v1_schema.py:205-225 | columns, which may be NULL, foreign keys, defaults, vocabularies and unique keys of questions |
| SchemaFacts.DecisionsTable | emctl/migrations/versions/0001_initial_v1_schema.py:226-240 | columns, which may be NULL, foreign keys, defaults, vocabularies and unique keys of decisions |
| SchemaFacts.ArtifactsTable | emctl/migrations/versions/0001_initial_v1_schema.py:241-271 | columns, which may be NULL, foreign keys, defaults, vocabularies and unique keys of artifacts |
| SchemaFacts.LearningsTable | emctl/migrations/versions/0001_initial_v1_schema.py:272-301 | columns, which may be NULL, foreign keys, defaults, vocabularies and unique keys of learnings |
| SchemaFacts.DebtTable | emctl/migrations/versions/0001_initial_v1_schema.py:302-350 | columns, which may be NULL, foreign keys, defaults, vocabularies and unique keys of debt |
| SchemaFacts.MetricsTable | emctl/migrations/versions/0001_initial_v1_schema.py:351-374 | columns, which may be NULL, foreign keys, defaults, vocabularies and unique keys of metrics |
| SchemaFacts.RetrosTable | emctl/migrations/versions/0001_initial_v1_schema.py:375-388 | columns, which may be NULL, foreign keys, defaults, vocabularies and unique keys of retros |
| SchemaFacts.RisksTable | emctl/migrations/versions/0003_observability_v2.py:85-130 | and of risks |
| SchemaFacts.TaskEventsTable | emctl/migrations/versions/0003_observability_v2.py:131-147 | and of task_events |
| SchemaFacts.NotesTable | emctl/migrations/versions/0006_notes.py:40-54 | and of notes |
| FinalSchema.TablesAtTheEnd | emctl/migrations/versions/0007_decision_audit_note.py:40-42 | after all upgrades every other table of 0001, and risks and task_events, are as they were created |
| FinalSchema.RunsAtTheEnd | emctl/migrations/versions/0004_token_accounting.py:51-57 | runs have gained four optional counts that are never negative, and nothing else |
| FinalSchema.DecisionsAtTheEnd | emctl/migrations/versions/0003_observability_v2.py:48-83 | decisions have gained status, significance, superseded_by and a note, with defaults and vocabularies |
| FinalSchema.TasksAndPrsAtTheEnd | emctl/migrations/versions/0005_task_groom_rank.py:34-35 | tasks have gained groom_rank; prs a task and a note |
| FinalSchema.NotesAtTheEnd | emctl/migrations/versions/0006_notes.py:40-55 | notes are as created |
| FinalSchema.IndexesAtTheEnd | emctl/migrations/versions/0006_notes.py:55 | and which indexes there are |
| MigrationTheorems.AdditionsWork | emctl/migrations/versions/0003_observability_v2.py:45-154 | the additions of a revision succeed on every valid database of the one before, give a valid one and keep every value |
| MigrationTheorems.BackfillWorks | emctl/migrations/versions/0003_observability_v2.py:156-163 | the backfill meets every constraint of task_events |
| MigrationTheorems.BackfillSeedsEveryTask | emctl/migrations/versions/0003_observability_v2.py:156-163 | afterwards each task has exactly one event, from NULL to its stored status |
| MigrationTheorems.UpgradeWorks | emctl/migrations/versions/0007_decision_audit_note.py:40-47 | every upgrade takes any valid database to a valid one with all old values in place, and its downgrade restores the old database exactly |
| MigrationTheorems.DowngradeWorks | emctl/migrations/versions/0006_notes.py:40-60 | every downgrade succeeds on any valid database, dropping no table that another still references, and what is left is valid and unchanged |
| MigrationTheorems.DowngradeToNothing | emctl/migrations/versions/0001_initial_v1_schema.py:411-429 | downgrading all the way leaves nothing behind |
| RepoRef.Search | command_center/github.py:26-48 | the leftmost match, host prefix first, then the longest owner, then the shortest repo: no match comes sooner |
| RepoRef.GreedyOwner | command_center/github.py:26-28 | the longest owner for which some repo fits, with the shortest such repo |
| RepoRef.LazyRepo | command_center/github.py:26-28 | the shortest repo that lets the rest match |
| RepoRef.ParseUndoesPrint | command_center/github.py:38-48 | for every owner and repo, form, optional `.git`, optional slash and surrounding blanks: exactly when the pair comes back, and what comes back when it does not |
| RepoRef.AcceptsIff | command_center/github.py:38-48 | a reference is accepted exactly when some suffix of the stripped text reads as owner and repo, what comes back is such a reading, and a refusal is a validation error |
| RepoRef.AllowedIff | command_center/github.py:26-28 | the alphabet of the two names: letters, digits, `_`, `.`, `-` |
| MetricText.NextBlock | emctl/repo/metrics.py:43 | the leftmost opener with a later closer, and the nearest such closer |
| MetricText.StrippedIsNormal | emctl/repo/metrics.py:43-48 | stripped text has no line comment and no block comment, and stripping again changes nothing |
| MetricText.FirstBlockGoes | emctl/repo/metrics.py:47-48 | the first block comment becomes one space, and nothing before it is lost |
| MetricText.FirstLineGoes | emctl/repo/metrics.py:47-48 | the same of the first line comment, up to its line end |
| MetricText.BlocksGoBeforeLines | emctl/repo/metrics.py:47-48 | a block comment goes even where a line comment would hide its opener |
| Text.AsciiSpaces | emctl/repo/metrics.py:58 | which ASCII characters are stripped as white space |
| MetricText.CoreIsBody | emctl/repo/metrics.py:58 | however the text splits into blank, core, blank, semicolons, blank, that core is the body |
| MetricText.AcceptedIff | emctl/repo/metrics.py:51-67 | accepted exactly when the stripped text is blank, core, blank, semicolons, blank, the core without semicolon and beginning with a word that spells select or with, each letter in either case, followed by white space or nothing |
| MetricText.NotAReadIff | emctl/repo/metrics.py:63-67 | called no read exactly when it is such a core whose first word is another |
| MetricText.SeveralIff | emctl/repo/metrics.py:61-62 | called several statements exactly when no choice of blanks and trailing semicolons leaves a core without one |
| MetricText.EmptyIff | emctl/repo/metrics.py:58-60 | called empty exactly when only blanks and semicolons are left |
| UseApi.RunKeepsInv | command_center/frontend/src/api/hooks.ts:25-49 | in every interleaving only the newest effect's request is live, while mounted, and the view follows it |
| UseApi.StaleIsInert | command_center/frontend/src/api/hooks.ts:30-46 | a callback of any other request, or after unmounting, changes nothing a view can see |
| UseApi.ViewFollowsNewest | command_center/frontend/src/api/hooks.ts:25-49 | loading is over exactly when the newest request has settled, and the view then shows its result without error, or its error |
| UseApi.StaleTrafficIsInvisible | command_center/frontend/src/api/hooks.ts:30-46 | a run and the same run without its stale callbacks look the same |
| UseApi.RespondExact | command_center/frontend/src/api/hooks.ts:30-40 | what a live callback shows, that a dead one shows nothing, and that the session signal is raised exactly by a live 401 of the API |
| UseApi.FinallyExact | command_center/frontend/src/api/hooks.ts:41-43 | the last callback ends the loading exactly if it is live |
| UseApi.EffectsExact | command_center/frontend/src/api/hooks.ts:25-49 | what mounting, a reload and its render, and unmounting do |
| UseApi.Hook.Execute | command_center/frontend/src/api/hooks.ts:25-49 | the setters and the live flags, changed in place, follow the protocol step |
| UseApi.Hook.Effect | command_center/frontend/src/api/hooks.ts:25-29 | a new live request, loading on, error cleared, data kept |
| UseApi.Hook.Clean | command_center/frontend/src/api/hooks.ts:44-46 | the running effect, and only it, stops being live |
| UseApi.Hook.Callback | command_center/frontend/src/api/hooks.ts:30-40 | a live request writes its data or its error, a dead one nothing |
| Render.RenderTable | emctl/output.py:60-76 | the loops over rows and columns emit header, rule and one line a row, or "(no rows)" |
| Render.WidthIsMax | emctl/output.py:65-71 | a width is the maximum over header and cells: an upper bound that is attained |
| Render.LinesAligned | emctl/output.py:72-76 | all lines have the same length, the widths and two spaces a gap |
| Render.CellsReadBack | emctl/output.py:72-76 | cutting any line at the computed offset gives that cell and blanks; a missing key reads as empty |
| Render.PrintDetermines | emctl/output.py:60-76 | tables of the same layout that print alike agree in every cell up to trailing blanks |
| Render.JoinLayout | emctl/output.py:72-76 | fixed-width parts, joined, can be cut apart again |
| Render.RenderRecord | emctl/output.py:79-85 | each line is its key, padded to the longest key, two spaces and its value; an empty record says so |
| Render.CellReads | emctl/output.py:44-53 | null prints as nothing, a flag as true or false, numbers in decimal, text as it is |
| Render.GetReads | emctl/output.py:72-76 | a key that a row does not have reads as null |
| Render.FrameReads | emctl/output.py:63-74 | the header is the keys of the first row, the rule is dashes across every column |
| Render.GapsRead | emctl/output.py:72-76 | two blanks part the columns on every line |
| Text.DecimalReads | emctl/output.py:53 | a number printed in decimal reads back as that number |
| Transcript.Aggregate | tools/agent_token_split.py:61-99 | totals are the sums over accepted lines and the model is the last non-empty one, for every outcome of parsing |
| Transcript.AcceptedMessage | tools/agent_token_split.py:73-87 | the guards let through exactly the message objects of short, non-blank, parseable object lines |
| Transcript.AddUsage | tools/agent_token_split.py:94-95 | each column grows by its own usage key, by integers that are not booleans |
| Transcript.Split | tools/agent_token_split.py:61-99 | splitting a transcript adds totals; the right part's model wins if it has one |
| Transcript.Permuted | tools/agent_token_split.py:61-99 | permuting lines keeps totals |
| Transcript.ModelIff | tools/agent_token_split.py:88-90 | the model is that of the last line naming one, also a line without usage; none exactly if no line names one |
| Transcript.SkippedLine | tools/agent_token_split.py:73-87 | a rejected line might as well not be there |
| Transcript.LineCounts | tools/agent_token_split.py:40-99 | what a line counts: its usage by the four keys of the API, its model if a non-empty string; lines up to 2 MiB |
| Transcript.OtherLines | tools/agent_token_split.py:73-87 | longer, blank, unparseable or other lines count for nothing |
| RelativeTime.LabelIff | command_center/frontend/src/lib/format.ts:20-33 | each label is shown for exactly one range of seconds, so never with 0 units, 60 minutes or 24 hours |
| RelativeTime.ErrorBounded | command_center/frontend/src/lib/format.ts:24-32 | the roundings are off by at most 30 s for minutes, 1830 s for hours and 45030 s for days, and half a second |
| RelativeTime.BoundsAreTight | command_center/frontend/src/lib/format.ts:24-32 | ages at which those bounds are reached |
| RelativeTime.FutureIsNow | command_center/frontend/src/lib/format.ts:24-25 | an instant still to come reads "just now" |
| RelativeTime.ShownApart | command_center/frontend/src/lib/format.ts:25-32 | two labels that read alike are the same label |
| RelativeTime.PrintedExact | command_center/frontend/src/lib/format.ts:20-33 | the very text for every age: a dash, just now, minutes, hours, yesterday, days |
| RelativeTime.Monotone | command_center/frontend/src/lib/format.ts:24-32 | labels never go back as time passes |

## Left out

- Concurrency: transactions run one after the other. `update_task` reads with a plain SELECT, so overlapping updates are outside every claim, and so are locks and isolation levels.
- Commit failure after GitHub has merged: the outward call stays in the model's call list, but the commit itself always succeeds.
- The postgres role of migration 0002 and the READ ONLY boundary of `metric report`: decided by the database server, not by this code.
- Sign-in, sessions, headers, FastAPI and Typer wiring, request validation and length limits: only what reaches the repositories is modelled. The HTTP client is an arbitrary verdict or error.
- Columns of which no property speaks: for example the text of a decision, `mode` of a run, severity of a debt item. Task and pull request columns are complete.
- Runs, artifacts, decisions, questions and debt are typed rows, not SQL rows; the link to built statements is made for tasks, pull requests and risks.
- `Sql.Exec`: NOT NULL, CHECK and foreign keys are one test on the row; of the unique constraints only the primary key is modelled. How the server ranks values and breaks ties is left open.
- Defaults of the prs table: the store's insertion of a pull request is modelled on typed rows only.
- `Debt.MergeExact`: the 32-bit limit of `recurrence` is modelled; other integer widths and the rounding of `cost_usd` to four places are not.
- `FinalSchema.IndexesAtTheEnd`: the WHERE conditions of partial indexes; an index only matters here for what a dropped column or table takes with it.
- Value types of migrations: a type is not checked against a value, JSONB defaults are text, and adding a column with default `now()` is not covered (no migration does).
- `UseApi.Hook`: React's scheduling is an arbitrary event order; an `onUnauthorized` callback that throws is not modelled.
- `Render.RenderTable`: what `isoformat`, `json.dumps` and `str` print is given; a cell with a line break counts as one line, as it does for the code. The JSON output mode is left to the JSON library.
- `Transcript.Aggregate`: reading the file and printing the result.
- `MetricText.AcceptedIff`: lower-casing is ASCII.
- `RelativeTime.Monotone`: parsing a date is given, as an optional instant; division is exact.
- Artifact content preview: file system behaviour.
- React views apart from `moveWithin`, `fmtTokens` and `fmtCost`: rendering and floating point.
- One-table list and create commands (projects, notes, retros, learnings, reviews, metrics) and the table of error codes: they would only add easy members.
