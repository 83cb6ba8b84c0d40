# Crucible_AI, modelled in Dafny

Crucible_AI is a project-management assistant. A chat agent answers questions about tasks,
projects and users, and it can add tasks. The tasks live in a SQLite database. A vector
store (Chroma) holds one text document per task for retrieval, and a background worker
keeps that store in step with the database. Next to it, Crucible Forge is a
plan/execute/evaluate coding agent with a command-line loop, a small web server and a set
of tools.

This project models the bookkeeping around those frameworks and proves what it promises.
The LLM, Chroma, SQLite, subprocess, the file system and GitHub are oracles: their answers
(or the errors they raise) are parameters.

- `wrappers.dfy`, `text.dfy`: `Option`, and the Python built-ins the code relies on.
  These are `str(int)`, `int(str)`, `strip`, `lower`, `split("\n")` and `"\n".join`, and
  f-string rendering of `None`.
- `tasks.dfy`: the three tables, the LEFT JOIN row both indexers read, and the INSERT with
  its CHECK constraints and AUTOINCREMENT id.
- `task_document.dfy`: the task-to-document projection (`format_task_as_document`).
- `memory_manager.dfy`: the index worker, a class over the vector store. It covers
  start-up reconciliation and message dispatch.
- `merged_agent.dfy`: the agent's name lookups, the `add_task` and `list_users` tools, the
  memory queue, and the `invoke_agent` guard.
- `sync.dfy`: the producer and the consumer together. Announced changes keep the index
  consistent with the database.
- `agent_main.dfy`: the confirmation-gated `add_new_task`.
- `server.dfy`: the web agent's `agent_state` and its handlers.
- `forge_cli.dfy`: the bounded plan/confirm/execute/evaluate loop of Crucible Forge.
- `forge_tools.dfy`: the result formatting of the Forge tools.
- `embed_db.dfy`: the one-off embedding pipeline.
- `prompt_context.dfy`: `PromptContext`. `prompt_context.py` and
  `__pycache__/prompt_context.py` are identical, so one model serves both, and the rows
  below cite either copy.

## Model

| member | source | states |
|---|---|---|
| Wrappers.Get | memory_manager.py:171-172 | `dict.get`: `None` exactly when the key is absent, else the stored value |
| Text.TrimStartCutsSpace | Crucible_Forge/tools.py:52 | `lstrip` keeps a suffix, cuts only whitespace, and leaves no leading whitespace |
| Text.TrimEndCutsSpace | Crucible_Forge/tools.py:52 | `rstrip` keeps a prefix, cuts only whitespace, and leaves no trailing whitespace |
| Text.StripCutsOnlySpace | agent_main.py:56 | `strip()` keeps one contiguous slice, with whitespace only around it and at neither end |
| Text.SplitLines | Crucible_Forge/tools.py:52 | `split("\n")` never returns an empty list |
| Text.SplitWithoutNewline | merged_agent.py:94 | a string without a newline splits into itself alone |
| Text.SplitAfterFirstLine | merged_agent.py:94 | splitting `a + "\n" + b` gives `a` followed by the split of `b` |
| Text.SplitJoinLines | merged_agent.py:94 | `"\n".join` is undone by `split("\n")` when no line holds a newline |
| Text.FirstLine | Crucible_Forge/tools.py:52 | `split('\n', 1)[0]` is a newline-free prefix, ending at the first newline or at the end |
| Text.SplitHead | Crucible_Forge/tools.py:52 | the first element of the full split is that first line |
| Text.DigitChar | memory_manager.py:134 | a digit value maps to the decimal character of that value |
| Text.NatToString | memory_manager.py:134 | `str(n)` of a natural number is a non-empty digit string without a leading zero |
| Text.IntToString | memory_manager.py:134 | `str(i)` is non-empty and consists of a minus sign and digits |
| Text.ReadNatToString | memory_manager.py:134 | the digits of `str(n)` read back as `n` |
| Text.ReadIntToString | memory_manager.py:134 | `str(i)` reads back as `i` |
| Text.IntToStringInjective | memory_manager.py:154 | distinct task ids get distinct Chroma ids |
| Text.DropUnderscores | Crucible_Forge/tools.py:26 | helper fact for `int()`: removing digit-group underscores never lengthens the string (the round trip is `Text.ParseIntToString`) |
| Text.ParseInt | Crucible_Forge/tools.py:25-31 | `int(s)` over ASCII digits succeeds only on a string that is not all whitespace |
| Text.ParseSignedNumeral | Crucible_Forge/tools.py:26 | helper fact for `int()`: a signed numeral is never empty (the round trip is `Text.ParseIntToString`) |
| Text.DropUnderscoresOfDigits | Crucible_Forge/tools.py:26 | an underscore-free numeral is unchanged |
| Text.NumeralOfDigits | Crucible_Forge/tools.py:26 | a non-empty digit string is a numeral `int()` accepts |
| Text.ParseIntToString | Crucible_Forge/tools.py:26 | `int(str(i)) == i` for every integer |
| Text.NonNegativeRoundTrip | Crucible_Forge/tools.py:26 | `int(str(n)) == n` for naturals |
| Text.NegativeRoundTrip | Crucible_Forge/tools.py:26 | `int("-" + str(n)) == -n` |
| Text.StripOfNegative | Crucible_Forge/tools.py:26 | a negative numeral has no whitespace to strip |
| Text.ParseSignedOfNegative | Crucible_Forge/tools.py:26 | a minus sign followed by a numeral reads as the negation |
| Text.StripOfNumber | Crucible_Forge/tools.py:26 | a digit string has no whitespace to strip |
| Text.StripOfPadded | Crucible_Forge/tools.py:26 | a string with nothing to strip, padded with a space in front and a newline behind, strips back to itself |
| Text.ParseNatToString | Crucible_Forge/tools.py:26 | `str(n)` is a numeral that reads back as `n` |
| Tasks.ProjectName | memory_manager.py:65 | the LEFT JOIN finds a name exactly when some project carries the key, and it is that project's name |
| Tasks.UserName | memory_manager.py:66 | the LEFT JOIN on users finds a name exactly when some user carries the key |
| Tasks.JoinRow | memory_manager.py:60-67 | the joined row of task `id` carries that id, title and status |
| Tasks.Insert | merged_agent.py:111-116 | the insert succeeds exactly when status and priority meet the CHECK constraints; the new id is fresh, the table gains exactly that row, and the invariants hold; otherwise it reports the constraint |
| Tasks.InsertKeepsOtherRows | merged_agent.py:111-115 | inserting a task leaves every other task's joined row unchanged |
| TaskDocument.Metadata.AsDict | memory_manager.py:42-50 | the metadata dict has exactly the seven keys, and `task_id` is the row id |
| TaskDocument.FormatTask | memory_manager.py:30-52 | the document's `task_id` is the row id, and its page content is the six labelled lines joined by newlines |
| TaskDocument.LayoutIsJoin | memory_manager.py:33-40 | the f-string equals the newline join of the six lines |
| TaskDocument.PageContentHasSixLines | memory_manager.py:33-40 | with single-line fields, the content splits into exactly six lines, Task, Project, Status, Priority, Assignee and Description, each with its column |
| TaskDocument.NoNewlineConcat | memory_manager.py:33-40 | concatenating newline-free strings adds no newline |
| TaskDocument.MetadataKeys | memory_manager.py:42-50 | a formatted document's metadata has the seven keys, with `task_id`, `project`, `assignee` and `due_date` taken from the row |
| TaskDocument.AllDocuments | memory_manager.py:77-95 | `get_all_task_documents` gives one document per row, in row order |
| MemoryManager.GetTaskDocumentById | memory_manager.py:55-75 | `None` exactly when no task has that id, else the formatted document of that task |
| MemoryManager.UpsertStoresEach | memory_manager.py:148-155 | upserting documents with distinct ids adds exactly their keys, stores each under its own key, and keeps every other entry |
| MemoryManager.Dispatch | memory_manager.py:171-202 | a malformed message changes nothing; `add`/`update` sets the task's entry to its current document, or leaves it when the task is gone; `delete` removes the entry; any other action changes nothing; no other key ever changes |
| MemoryManager.MemoryWorker.constructor | memory_manager.py:114-119 | the worker opens the persisted store as it is |
| MemoryManager.MemoryWorker.InitialSync | memory_manager.py:126-161 | after reconciliation the index keys are exactly `str(id)` of the database's tasks, and each entry is the task's current document, also for an empty database |
| MemoryManager.MemoryWorker.HandleMessage | memory_manager.py:165-202 | one turn of the loop applies `Dispatch` to the store |
| MemoryManager.MemoryWorker.Listen | memory_manager.py:165-202 | the loop applies the messages in order of arrival |
| MemoryManager.ListingKeys | memory_manager.py:133-134 | the ids of the full listing's documents are the database's ids |
| MemoryManager.SyncResult | memory_manager.py:142-155 | deleting the obsolete keys and then upserting the listing makes the index consistent |
| MemoryManager.SyncKeys | memory_manager.py:142-155 | after deleting the obsolete keys and upserting the listing, the index keys are exactly the database keys |
| MemoryManager.UpsertedListing | memory_manager.py:150-155 | after the upsert every task's entry is its current document |
| MemoryManager.EmptyListing | memory_manager.py:150 | an empty listing means the database has no tasks |
| MergedAgent.ProjectIdByName | merged_agent.py:51-56 | `None` exactly when no project has that exact name, else the id of the first that does |
| MergedAgent.UserIdByName | merged_agent.py:58-63 | `None` exactly when no user name contains the needle, else the id of the first whose name does |
| MergedAgent.AddTaskOutcome | merged_agent.py:96-125 | the project is checked first, then the user; each failure returns its message and changes nothing, a CHECK-refused insert replying `Error adding task: ` followed by the constraint's message; a row is added exactly when both lookups succeed and the CHECK constraints hold; the row has the given fields and the defaults Medium and To Do, and the reply names the new id |
| MergedAgent.ProjectCheckedFirst | merged_agent.py:105-108 | with an unknown project the reply does not depend on the users table, so the user is never looked up |
| MergedAgent.AddedTaskRow | merged_agent.py:105-115 | the inserted task, read back through the join, shows the requested project and an assignee whose name contains the requested one |
| MergedAgent.ProjectNameOfKey | merged_agent.py:105 | with unique project ids the join finds the project that carries the key |
| MergedAgent.UserNameOfKey | merged_agent.py:107 | with unique user ids the join finds the user that carries the key |
| MergedAgent.UserLines | merged_agent.py:94 | one `- ID: i, Name: n, Email: e` line per user, in table order |
| MergedAgent.ListUsers | merged_agent.py:93-94 | the fixed message exactly when there are no users |
| MergedAgent.JoinStartsWithFirst | merged_agent.py:94 | a newline join starts with its first line |
| MergedAgent.ListUsersLines | merged_agent.py:94 | with single-line names and emails, the reply splits back into exactly one line per user |
| MergedAgent.UserLineSingle | merged_agent.py:94 | a user line holds no newline when the name and email hold none |
| MergedAgent.IntToStringDigits | merged_agent.py:94 | `str(id)` holds no newline |
| MergedAgent.InvokeAgent | merged_agent.py:183-204 | not initialised gives the fixed error; otherwise the executor's output, its stand-in when the output is missing, or the apology when the executor raised |
| MergedAgent.TaskAgent.constructor | merged_agent.py:32-33 | no queue at first |
| MergedAgent.TaskAgent.SetMemoryQueue | merged_agent.py:35-38 | the queue is replaced and nothing else changes |
| MergedAgent.TaskAgent.AddTask | merged_agent.py:96-125 | the database becomes the outcome's; exactly one `add` message with the new id is put, only on success and only when a queue is set |
| MergedAgent.TaskAgent.Invoke | merged_agent.py:187-189 | before initialisation the reply is the not-initialised error, and no state changes |
| Sync.OtherDocumentsKept | memory_manager.py:186-191 | a write to one task leaves every other task's document unchanged |
| Sync.WrittenRowKeepsConsistent | memory_manager.py:184-194 | handling `add`/`update` for a written row keeps the index consistent with the database |
| Sync.WrittenEntries | memory_manager.py:188-191 | after the upsert every task's entry is its current document |
| Sync.OtherEntryKept | memory_manager.py:190 | another task's key differs and its entry is already current |
| Sync.DispatchWrite | memory_manager.py:184-191 | for an existing task, `add`/`update` stores its current document |
| Sync.WrittenKeys | memory_manager.py:190 | writing a row adds exactly its key to the database's keys |
| Sync.DeletedRowKeepsConsistent | memory_manager.py:196-200 | handling `delete` for a deleted row keeps the index consistent |
| Sync.ReplayTracksDb | memory_manager.py:165-202 | replaying a chain of announced changes keeps the index consistent with the latest database |
| Sync.AddedTaskReachesIndex | merged_agent.py:116-120 | a task added by `add_task`, once its `add` message is handled, is in the index, and the index is consistent again |
| Sync.RedeliveryIsIdempotent | memory_manager.py:184-202 | handling the same message twice against the same database equals handling it once |
| AgentMain.Confirm | agent_main.py:54-59 | answers are read until one normalises to `y` or `n`; that answer is returned, or none if the input runs out |
| AgentMain.AddNewTask | agent_main.py:19-78 | `n` cancels with the fixed message and no change; `y` inserts the row with the defaults Medium and To Do and reports the new id; a database error is reported and nothing changes |
| Server.Newest | Crucible_Forge/server.py:102-104 | keeping the newest entries never keeps more than five |
| Server.Record | Crucible_Forge/server.py:126-128 | an append with trimming puts the entry last and, from a history of at most five entries, keeps exactly the newest five |
| Server.RecordAllKeepsNewest | Crucible_Forge/server.py:156-158 | however many entries are recorded, the history is the newest five of everything seen |
| Server.NewestOfNewest | Crucible_Forge/server.py:193-195 | trimming before or after an append gives the same newest five |
| Server.PyBound | Crucible_Forge/server.py:185 | Python's slice bound for an index: in range, counted from the end when negative, and clamped otherwise |
| Server.RethinkAsWritten | Crucible_Forge/server.py:185 | the source's splice; for an index inside the plan it is prefix, then segment, then suffix |
| Server.NegativeIndexDuplicatesPlan | Crucible_Forge/server.py:168-185 | index -1 passes the guard, and `[a, b]` with `[c]` becomes `[a, c, a, b]` |
| Server.RethinkPlan | Crucible_Forge/server.py:185 | the corrected splice keeps the prefix and the suffix, places the segment at the index, and has length `|plan| - 1 + |segment|` |
| Server.RethinkAgreesOnValidIndex | Crucible_Forge/server.py:168-185 | on an index inside the plan, the source's guard and splice agree with the corrected ones |
| Server.AgentServer.constructor | Crucible_Forge/server.py:34-39 | no goal, no plan, history `["System is ready."]`, not running |
| Server.AgentServer.RunPlanning | Crucible_Forge/server.py:78-106 | while busy nothing changes; otherwise it resets the goal, plan and history, takes the planner's plan or records the error, and is never left busy |
| Server.AgentServer.RunNextStep | Crucible_Forge/server.py:108-160 | while busy or with an empty plan nothing changes; otherwise the head step is removed and executed, its observation recorded, and the plan replaced by the re-evaluation when enabled; errors are recorded; never left busy |
| Server.AgentServer.RunRethinkStep | Crucible_Forge/server.py:163-197 | with the corrected guard of the Findings row: while busy or for an index outside `0 <= i < len(plan)` nothing changes; otherwise the step is replaced by the segment, or the error recorded; never left busy |
| Server.AgentServer.Stop | Crucible_Forge/server.py:228-234 | not busy, empty plan, goal and history kept |
| Server.AgentServer.StartAgent | Crucible_Forge/server.py:205-209 | always answers that planning was initiated; the new goal, plan, history and busy flag are those of `RunPlanning` |
| Server.AgentServer.ExecuteNextStep | Crucible_Forge/server.py:211-217 | refused while busy with the state unchanged; otherwise the goal, plan, history and busy flag are those of `RunNextStep`: the head step popped and executed, its observation or error recorded, the re-evaluated plan when enabled, and not busy |
| Server.AgentServer.RethinkStep | Crucible_Forge/server.py:219-225 | refused while busy with the state unchanged; otherwise the plan and history are those of `RunRethinkStep`: unchanged for an index outside the plan, else the step replaced by the segment or the error recorded, and not busy |
| ForgeCli.RunForge | Crucible_Forge/main.py:6-61 | the outcome is an initialisation failure exactly when initialisation raised, and then nothing else happens; the input closes only once every line has been read, one cycle per line after the goal plus the cycle that found no answer; at most five cycles run; each cycle except the last executed its plan without achieving the goal, so a failed execution goes round again; the first plan gets no observations and each later one the previous execution's; a plan not confirmed with `y` is never executed; a failed plan is not evaluated; an achieved goal stops the loop |
| ForgeCli.ExtendTrace | Crucible_Forge/main.py:28-48 | appending a cycle that follows from the trace keeps every earlier cycle following |
| ForgeTools.RunShellCommand | Crucible_Forge/tools.py:124-147 | a timeout gives the fixed message, any other failure gives its error, and a completed command gives the composed reply |
| ForgeTools.ShellReplyStartsWithStdout | Crucible_Forge/tools.py:134-138 | the reply opens with the STDOUT block exactly when stdout is non-empty |
| ForgeTools.StdoutOpens | Crucible_Forge/tools.py:135-136 | with stdout, the STDOUT block comes first |
| ForgeTools.NoStdoutBlock | Crucible_Forge/tools.py:137-140 | without stdout, the reply does not open with a STDOUT block |
| ForgeTools.ShellReplyStderrOnly | Crucible_Forge/tools.py:137-138 | with stderr only, the STDERR block comes first |
| ForgeTools.ShellReplyExitCode | Crucible_Forge/tools.py:142 | the reply always ends with the exit-code line, and the code reads back from it |
| ForgeTools.Walk | Crucible_Forge/tools.py:102-107 | the walk of a directory first visits the directory itself with its files |
| ForgeTools.WalkSkipsPruned | Crucible_Forge/tools.py:104 | below the starting directory no visited directory is pruned, and every depth is greater |
| ForgeTools.WalkAllSkipsPruned | Crucible_Forge/tools.py:104 | the walks of a listing never visit a pruned directory |
| ForgeTools.PrunedContentsInvisible | Crucible_Forge/tools.py:104 | the contents of a pruned directory make no difference to the walk |
| ForgeTools.Spaces | Crucible_Forge/tools.py:106 | `' ' * n` is `n` spaces |
| ForgeTools.Basename | Crucible_Forge/tools.py:107 | `basename` is the slash-free tail after the last `/` |
| ForgeTools.AppendFiles | Crucible_Forge/tools.py:108-110 | the file loop appends each file at one level deeper, in order |
| ForgeTools.AppendVisit | Crucible_Forge/tools.py:105-110 | one pass appends the directory line and then its file lines |
| ForgeTools.AppendVisits | Crucible_Forge/tools.py:102-110 | the walk loop appends every visit's text, in visit order |
| ForgeTools.ListFilesRecursive | Crucible_Forge/tools.py:92-111 | a path that is not a directory gives the error; otherwise the header, then for every visited directory its line and its files, indented by depth |
| ForgeTools.TaskOf | Crucible_Forge/tools.py:51-53 | a noted card's task carries its id; its title is the first line of the stripped note, without a newline; the full note is the stripped note |
| ForgeTools.CardTasks | Crucible_Forge/tools.py:50-53 | never more tasks than cards |
| ForgeTools.CardTasksFromNotes | Crucible_Forge/tools.py:50-53 | every noted card gives exactly one task, and every task comes from a noted card |
| ForgeTools.CollectTasks | Crucible_Forge/tools.py:50-53 | the card loop gives the tasks of the noted cards, in card order |
| ForgeTools.CollectColumns | Crucible_Forge/tools.py:47-54 | one entry per column, with its name and the tasks of its cards |
| ForgeTools.GetGithubProjectTasks | Crucible_Forge/tools.py:9-55 | a missing setting gives "Configuration missing"; a non-integer project number gives "Invalid Configuration"; with a valid configuration, a GitHub failure gives "GitHub API Error" with its status and data, any other failure gives "Unexpected Error" with its text, and a connected board gives exactly its project data, one entry per column with the noted cards' tasks; project data never comes from anything else |
| ForgeTools.ProjectNumberAccepted | Crucible_Forge/tools.py:26 | a project number written as `str(n)`, alone or padded with whitespace, is accepted as `n` |
| ForgeTools.WriteFile | Crucible_Forge/tools.py:74-89 | on success the file holds the content, nothing else changes, and the message gives the length; on failure nothing changes and the error is reported |
| EmbedDb.SameLayoutAsIndex | embed_db.py:59-66 | the embedding pipeline's page content is the index worker's, line for line |
| EmbedDb.LoadTasksFromDb | embed_db.py:13-80 | no documents when the file is missing or the connection fails; otherwise one document per row, in order, each the index worker's document with `task_id` the row id |
| EmbedDb.EmbedMain | embed_db.py:82-96 | no store exactly when no documents were loaded; otherwise the store holds the documents of all rows |
| PromptContext.Format | prompt_context.py:14-31 | empty exactly when both fields are empty; otherwise the header, the background block, the current block and the footer, each block present only when its field is non-empty |
| PromptContext.PromptContext.constructor | prompt_context.py:7-12 | both fields empty, so the formatted prompt is empty |
| PromptContext.PromptContext.FormatForPrompt | __pycache__/prompt_context.py:14-31 | the local `+=` accumulation returns `Format` of the fields and changes nothing |
| PromptContext.PromptContext.Clear | __pycache__/prompt_context.py:33-38 | both fields empty, so the formatted prompt is empty |

## Left out

- I/O and frameworks: the LLM, the ReAct executor, Chroma's embeddings and similarity
  search, subprocess, `os.walk`, GitHub, Discord, FastAPI and the WebSocket broadcasts.
  Their results are parameters, and log output and prints are not modelled.
- Database connection failures: the "Could not connect" replies of `add_task` and
  `list_users`, and the worker's skipped sync and skipped message.
- Catch-all exception paths around I/O: `list_files_recursive`'s "An unexpected error
  occurred while listing the files" reply, and the initial sync's generic `except
  Exception`, which logs and leaves the store as far as it got. `EmbedDb.LoadTasksFromDb`
  models a failed connection as a flag.
- The worker's start-up checks (a missing Chroma directory, a failing embedding model),
  its retry and sleep branches, and the multiprocessing queue itself. A delivery pairs each
  message with the database as it stands when the message is handled.
- Concurrency in server.py: each handler is one atomic transition. A stop arriving while a
  handler is running is not modelled.
- Timestamps, the `updated_at` trigger and foreign-key actions of the schema. Foreign keys
  are not enforced by the connections, so the model does not enforce them either.
- `read_file` and the "Error Processing Project Data" path of `get_github_project_tasks`.
  Neither has logic of its own beyond I/O.
- MergedAgent.UserIdByName: LIKE is modelled as a plain substring test. SQLite's ASCII case
  folding and the `%`/`_` wildcards inside a user name are not modelled.
- ForgeTools.ListFilesRecursive: the indentation level is the depth in the tree.
  `root.replace(directory, '').count(os.sep)` gives a different level when `directory`
  ends with a separator or occurs again inside a path.
- ForgeTools.GetGithubProjectTasks: the report is the dict before `json.dumps`. A GitHub
  error's `data` is a string, and the "Error Processing Project Data" path is left out.
- ForgeTools.WriteFile: the files are a map from path to content. The `makedirs` of the
  parent directory is not modelled.
- EmbedDb.EmbedMain: the store is the list of documents. The ids Chroma generates for them
  are not modelled. The worker's `InitialSync` holds for any persisted store, and it
  replaces those ids by `str(task_id)`.
- MemoryManager.Dispatch: `task_id` is an integer. A message that carries the id as a
  string is not modelled.
- Text.Lower: ASCII only. `str.lower()` on other letters is not modelled.
- Tasks.ConstraintError: the text of SQLite's CHECK failure message, and that the status
  CHECK is reported before the priority CHECK when both fail, follow SQLite's behaviour
  rather than anything in the repository.
- Text.ParseInt: ASCII decimal digits only. `int()` also accepts other Unicode decimal
  digits (full-width `１２`, say); the model reports those as not an integer.
- Server.AgentServer.RunRethinkStep: uses the corrected guard of the Findings row, so a
  negative index leaves the plan unchanged. The source's guard lets it through to the
  splice, which `Server.RethinkAsWritten` models as written.
- Server.AgentServer.RunNextStep: `str(observation)` is the executor's answer as a
  string. The executor result's own `str` is not modelled.

## Findings

| source | as written | input that shows it | evidently intended | confidence | as-written member | corrected member |
|---|---|---|---|---|---|---|
| Crucible_Forge/server.py:168-185 | the guard rejects only an empty plan or `task_index >= len(plan)`, so a negative index reaches the splice `plan[:i] + segment + plan[i+1:]` | `task_index = -1`, plan `[a, b]`, segment `[c]` gives `[a, c, a, b]`: the plan is duplicated instead of one step being replaced | reject any index outside `0 <= task_index < len(plan)` | not executed | Server.NegativeIndexDuplicatesPlan | Server.RethinkPlan |
