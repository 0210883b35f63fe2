# Step-chain runner and blueprint creator — a Dafny model

This project models the core of two small systems.

The first is the **step-chain runner**, which has three parts:

- **The runner** (`backend/runner.py`) asks a language model to break a problem into
  steps. It then executes each step and has the model verify it against the step's
  checklist. Last, it asks for a final summary.
- **The store and the server** (`backend/server.py`, with the tables of
  `backend/database.py`). The runner records its progress in a `runs` row and as an
  append-only `events` log. The server creates runs, reports a run's status and
  streams a run's events to the browser by polling the log.
- **The page** (`frontend/src/App.js`). Its `onmessage` handler folds the streamed
  events into what the page shows. `getEventLabel` and `getEventIcon` name and
  decorate each event.

The second is the **blueprint creator** of `langchain-creator-system/creator_system`.
It has three parts:

- the verifier that checks a generated blueprint for completeness and safety;
- the token rules: the step summary contract and the compact-manifest mode;
- the offline, keyword-based requirements extractor.

Files and modules:

| file | module | what it holds |
|---|---|---|
| `wrappers.dfy` | `Wrappers` | `Option` and `Result` |
| `text.dfy` | `Text` | the Python `str` operations the code uses: `strip`, `startswith`, `in`, `split`, `join`, ASCII `lower` and `str(n)` |
| `protocol.dfy` | `Protocol` | run records, run statuses, event payloads and their type names, and `update_run`'s field assignment |
| `step_chain.dfy` | `StepChain` | the pure parts of the runner: the initial state, `should_continue`, fence stripping of the plan reply, and the prompts and their context |
| `runner.dfy` | `Runner` | the `StepChainRunner` class: graph nodes as methods over the run row, the event log, a scripted model and a clock |
| `server.dfy` | `Server` | the `Store` class (`runs` and `events` tables), `get_run_status`, the filtered event fetch and the SSE event generator |
| `client.dfy` | `Client` | the `onmessage` reducer as a function, the `App` component as a class, `getEventLabel` and `getEventIcon` |
| `blueprint_verifier.dfy` | `BlueprintVerifier` | `verify_blueprint` and `check_no_reprint_rule` |
| `token_rules.dfy` | `TokenRules` | `StepSummaryContract` and `enforce_compact_mode` |
| `requirements_extractor.dfy` | `RequirementsExtractor` | `extract_project_request` and `_template_extract` |

The language model is a **script**: a sequence of replies, where reply `i` answers call
`i` and each reply is either text or an error message. `json.loads` is a given decoding
of plan texts to steps or to an error message. `datetime.utcnow()` is a counter that
each reading advances. The event stream reads the database as a **timeline**: a
sequence of snapshots of one growing store, one per read, in the order the reads
happen.

Where the code and the design description of the system disagree, the model follows
the code:

- Prompts are built from the whole problem text and every earlier step output. The
  code does no truncation and no windowing.
- A failed verification call fails the run; it is not turned into a synthetic pass.
- A failed final-summary call fails the run; there is no fallback text.
- A verdict passes only if, once stripped, it starts with `PASS`, in upper case.
- A plan that cannot be decoded produces two `run_failed` events. `create_plan`
  reports the decoding error. The graph then still runs `execute_step`, which does
  nothing on the empty plan, and `verify_step`, which indexes the empty plan. The
  resulting `IndexError` is reported by `run`, whose error message overwrites the
  stored one.
- An empty plan is announced with `plan_created` and then fails the same way.

## Model

| member | source | states |
|---|---|---|
| Protocol.TypeName | backend/server.py:116-123 | every event the runner emits carries one of the seven documented type names |
| Protocol.NewRun | backend/database.py:17-26 | a new run row is `queued`, has step index and total 0, and has no start time, output, error or snapshot |
| Protocol.Set | backend/runner.py:58-59 | `setattr` of one field changes that field only, and never the run id, problem or update time |
| Protocol.ApplyAllSetsExactlyGiven | backend/runner.py:58-61 | after the keyword loop, each field holds the last value given for it, or its old value when none was given; the id and problem are untouched |
| StepChain.InitialState | backend/runner.py:293-303 | the graph starts with an empty plan, step 0, no outputs, results, final output or error |
| StepChain.ShouldContinue | backend/runner.py:216-222 | the route is `error` exactly when the state holds an error; `continue` only while steps remain; `finish` only when none remain |
| StepChain.PlanTextUnfenced | backend/runner.py:95-99 | a reply that does not start with a fence is only stripped |
| StepChain.PlanTextBareFence | backend/runner.py:98-99 | a reply that starts with a bare fence yields the stripped text up to the next fence |
| StepChain.PlanTextJsonFence | backend/runner.py:96-97 | a reply that starts with a `json` fence yields the stripped text up to the next fence, and stops at a second `json` fence when it comes before that |
| StepChain.PlanTextJsonFenceSimple | backend/runner.py:96-97 | when no second `json` fence follows, the plan text is the stripped text between the opening and closing fences |
| StepChain.BuildContext | backend/runner.py:141-146 | the loop builds the context block of all earlier outputs, numbered from 1 |
| StepChain.StepPromptHasEveryPriorOutput | backend/runner.py:141-155 | the execution prompt for a step contains the numbered entry of every earlier step's output |
| StepChain.EntriesPrefix | backend/runner.py:145-146 | the context of the first `k` outputs is a prefix of the whole context |
| Runner.StepChainRunner.constructor | backend/runner.py:29-39 | a new runner has committed no events and made no model calls |
| Runner.StepChainRunner.EmitEvent | backend/runner.py:41-49 | an event is appended to the log and nothing else changes |
| Runner.StepChainRunner.UpdateRun | backend/runner.py:51-62 | the row gets the given fields, then a fresh `updated_at` |
| Runner.StepChainRunner.Invoke | backend/runner.py:91 | each model call consumes the next scripted reply and records its prompt |
| Runner.StepChainRunner.CreatePlan | backend/runner.py:64-121 | the run is marked running with a start time, then one of three outcomes. On a model error the exception propagates with no event. On a decoded plan: `plan_created` with the plan and its length, `total_steps` set, trackers reset. On a decoding error: `run_failed` with the error, status failed with "Failed to create plan: …", and the error put into the state |
| Runner.StepChainRunner.ExecuteStep | backend/runner.py:123-171 | there are four outcomes. No step left: a no-op. A missing `step_number` or `description`: a `KeyError` before any event. Otherwise `step_started` and the step index are written and the prompt carries the full context. A model error then propagates after `step_started`; a reply emits `step_output` and appends the output |
| Runner.StepChainRunner.VerifyStep | backend/runner.py:173-214 | there are four outcomes. An out-of-range step or no output: `IndexError`. A missing checklist: `KeyError`. A model error: it propagates. Otherwise the verdict is stripped and passes iff it starts with `PASS`, giving `verify_pass` or `verify_fail` with the verdict as reason, the result appended and the step advanced |
| Runner.StepChainRunner.GenerateFinalOutput | backend/runner.py:224-256 | on a reply: `run_completed` with the output, status completed with the output stored. On a model error: it propagates and nothing is written |
| Runner.StepChainRunner.ExecuteAndVerify | backend/runner.py:272-273 | an execute node followed by a verify node. It never emits a terminal event. It adds exactly one step's events when it passes through |
| Runner.StepChainRunner.StepPass | backend/runner.py:273-283 | one pass of the execute–verify cycle keeps the step log well formed and never emits a terminal event |
| Runner.StepChainRunner.StepLoop | backend/runner.py:272-285 | the cycle runs once per planned step, in order, and then `generate_final`. A completed loop logged every step's events and `run_completed`, and made 1 + 2·n model calls. An error route or exception ends it with no terminal event |
| Runner.StepChainRunner.AfterPlan | backend/runner.py:269-285 | after `create_plan` the graph either routes to `END` on a plan error or enters the step loop; an empty plan raises `IndexError` |
| Runner.StepChainRunner.Graph | backend/runner.py:258-287 | the compiled graph from `create_plan` to `END`, with each outcome of the planning reply |
| Runner.StepChainRunner.SaveState | backend/runner.py:309-316 | the snapshot of plan, outputs and results is stored, and nothing else but `updated_at` changes |
| Runner.StepChainRunner.ReportFailure | backend/runner.py:318-320 | the handler emits `run_failed` with the message and stores status failed with that error |
| Runner.StepChainRunner.Run | backend/runner.py:289-320 | a run ends completed or failed. A completed run stored its snapshot and logged the plan, each step's events in order and `run_completed`. A failed run's last event reports the stored error and nothing was completed. Each planning outcome gives its exact event log |
| Server.Store.CreateRun | backend/server.py:58-79 | a queued run is added under its id, the store only grows, and `get_run_status` then reports it queued at step 0 of 0 |
| Server.Store.AppendEvent | backend/database.py:35-39 | an event is appended with the next autoincrement id and the log stays strictly increasing by id |
| Server.AppendKeepsOrder | backend/database.py:35 | appending with an id above every other keeps the ids increasing |
| Server.GetRunStatus | backend/server.py:81-106 | the status is an error iff the run is missing, and the error is 404 "Run not found"; otherwise it reports the row |
| Server.RunEventsSound | backend/server.py:144-150 | every fetched event belongs to the run, lies above the cursor and is in the table |
| Server.RunEventsComplete | backend/server.py:144-150 | every event of the run above the cursor is fetched |
| Server.RunEventsIncreasing | backend/server.py:144-150 | the fetched events are ordered by increasing id |
| Server.RunEventsLastIsMax | backend/server.py:152-163 | the cursor left by the last event sent is at least the id of every event fetched |
| Server.FetchContinues | backend/server.py:140-163 | events sent so far followed by those above the cursor are exactly the run's events in the later table, with no gap and no duplicate |
| Server.FetchAdvances | backend/server.py:152-163 | after sending a batch the cursor covers every event of the run in the table fetched |
| Server.MessagesAppend | backend/server.py:152-162 | each stored event becomes one message, in order |
| Server.SendEach | backend/server.py:152-163 | the batch is sent in order and the cursor ends at the last event's id |
| Server.FetchAndSend | backend/server.py:144-163 | after one fetch the stream has sent exactly the run's events in the fetched table |
| Server.EventGenerator | backend/server.py:126-176 | a missing run gets one `error` event; otherwise the stream sends the run's events fetched, in increasing id order. It closes right after the first status read that sees the run completed or failed |
| Server.PollLoop | backend/server.py:140-176 | the polling loop keeps the stream equal to the run's events in the table it last fetched |
| Server.LostFinalEvent | backend/server.py:144-173 | with the loop as written, a stream can close without sending `run_completed` although it was in the table at the status read |
| Server.EventGeneratorFlushed | backend/server.py:126-176 | the corrected generator, once closed, has sent every event of the run that was in the table at the status read that saw it finish |
| Server.FlushedPollLoop | backend/server.py:140-176 | the corrected loop reads the status first, then fetches and sends |
| Client.KindOf | frontend/src/App.js:99-159 | a type falls into the default branch exactly when it is not one of the seven known types |
| Client.KindOfEventMatches | frontend/src/App.js:99 | the page classifies each event the runner emits under the case written for it |
| Client.NextIndex | frontend/src/App.js:130-133 | the step index after a pass is one more than the previous index, or 1 when there was none |
| Client.HandleFrame | frontend/src/App.js:93-160 | every message is appended to the event list. An unknown type changes nothing else. Running and the stream end exactly on a terminal type. The plan, final output and error change only on their own types |
| Client.HandleSteps | frontend/src/App.js:100-142 | `plan_created` shows the plan, running at step 0 of the total. `step_started` gives the new number and description with no output or verification. Output, pass and fail each set their own keys and keep the step's other keys. Only `verify_pass` moves the index, keeping the status and total. Other events leave the current step alone |
| Client.App.constructor | frontend/src/App.js:93-160 | the page starts from the reset state |
| Client.App.OnMessage | frontend/src/App.js:93-164 | a message that does not parse changes nothing; one that parses is folded in by the reducer |
| Client.DeliverAppend | frontend/src/App.js:93-160 | folding two runs of messages is folding one after the other |
| Client.ClientSeesCompletedRun | frontend/src/App.js:93-160 | a completed run streamed to a fresh page gives a specific final page. It shows the plan and the run completed with one step counted per `verify_pass`, out of the plan's length. It shows the final output, no error and every event, and it is no longer running. Later messages are ignored |
| Client.ClientSeesFailure | frontend/src/App.js:151-156 | any non-terminal events then `run_failed` leave the page failed with the error and no longer running, and the page takes no further events |
| Client.DeliverOpen | frontend/src/App.js:96-142 | non-terminal events keep the stream open and are all listed |
| Client.Label | frontend/src/App.js:218-228 | a known type gets its non-empty display name, and an unknown type is shown as itself |
| Client.LabelsDistinct | frontend/src/App.js:219-227 | different known types get different labels |
| Client.Icon | frontend/src/App.js:197-216 | the chain icon is shown exactly for `plan_created` and for unknown types |
| BlueprintVerifier.VerifyBlueprint | langchain-creator-system/creator_system/verifier.py:16-67 | the issues are the key, path, env, schema, secret and size issues in that order, and the blueprint is valid iff there are none |
| BlueprintVerifier.CheckRequiredKeys | langchain-creator-system/creator_system/verifier.py:30-34 | one issue per empty required key, in the listed order |
| BlueprintVerifier.KeyIssuesSpec | langchain-creator-system/creator_system/verifier.py:31-34 | an issue is reported for a key iff that key is empty |
| BlueprintVerifier.CheckPaths | langchain-creator-system/creator_system/verifier.py:36-41 | the path checks run over every file-tree entry, in order |
| BlueprintVerifier.PathIssuesSpec | langchain-creator-system/creator_system/verifier.py:37-41 | each path starting with `/` is reported absolute and each containing `..` is reported relative, and nothing else is reported |
| BlueprintVerifier.BothPathIssues | langchain-creator-system/creator_system/verifier.py:38-41 | one path can get both issues |
| BlueprintVerifier.CheckEnv | langchain-creator-system/creator_system/verifier.py:43-47 | there is one issue, at most, iff env vars exist and `.env.example` is not a file |
| BlueprintVerifier.HasPathLoop | langchain-creator-system/creator_system/verifier.py:45 | the search finds a file iff one has that path |
| BlueprintVerifier.CheckSchema | langchain-creator-system/creator_system/verifier.py:49-51 | a schema mentioning neither `class` nor `TypedDict` is reported |
| BlueprintVerifier.CheckSecrets | langchain-creator-system/creator_system/verifier.py:53-59 | the secret checks run file by file |
| BlueprintVerifier.CheckFileSecrets | langchain-creator-system/creator_system/verifier.py:55-59 | the secret checks run pattern by pattern on one file |
| BlueprintVerifier.PatternIssuesSpec | langchain-creator-system/creator_system/verifier.py:56-59 | a pattern is reported for a file iff its lower-cased content contains it and the path lacks `example`; at most one issue per pattern |
| BlueprintVerifier.SecretIssuesSpec | langchain-creator-system/creator_system/verifier.py:54-59 | every leak of every file is reported, and every report is a leak |
| BlueprintVerifier.CountLines | langchain-creator-system/creator_system/verifier.py:62 | the total is the sum of each file's `split('\n')` length |
| BlueprintVerifier.CheckSize | langchain-creator-system/creator_system/verifier.py:61-64 | more than 2000 lines in total is reported with the count |
| BlueprintVerifier.KeysPass | langchain-creator-system/creator_system/verifier.py:31-34 | no key issue iff every required key is non-empty |
| BlueprintVerifier.PathsPass | langchain-creator-system/creator_system/verifier.py:37-41 | no path issue iff every path is safe |
| BlueprintVerifier.SecretsPass | langchain-creator-system/creator_system/verifier.py:54-59 | no secret issue iff no file leaks any pattern |
| BlueprintVerifier.ValidIffAcceptable | langchain-creator-system/creator_system/verifier.py:66-67 | a blueprint is valid iff it meets all six requirements, stated independently of the issue list |
| BlueprintVerifier.CheckNoReprintRule | langchain-creator-system/creator_system/verifier.py:70-84 | the rule holds iff no non-test `.py` file has more than 100 lines |
| TokenRules.StepSummaryContract.constructor | langchain-creator-system/creator_system/token_rules.py:17-22 | all five lists start empty |
| TokenRules.StepSummaryContract.ToDict | langchain-creator-system/creator_system/token_rules.py:24-31 | the dictionary has exactly the five keys, each mapped to its list |
| TokenRules.StepSummaryContract.ToText | langchain-creator-system/creator_system/token_rules.py:33-46 | the text is the summary lines joined by newlines, and it starts with the title |
| TokenRules.AppendBullets | langchain-creator-system/creator_system/token_rules.py:41-45 | one bullet line per item, in order |
| TokenRules.BulletsSpec | langchain-creator-system/creator_system/token_rules.py:41-42 | bullet `k` is the item `k` indented with a dash |
| TokenRules.SummaryLineCount | langchain-creator-system/creator_system/token_rules.py:33-46 | splitting the text gives back its lines: 6 plus one per to-do and per limitation, with the title first |
| TokenRules.EnforceCompactMode | langchain-creator-system/creator_system/token_rules.py:49-80 | content within the limit is returned unchanged; longer content becomes the manifest |
| TokenRules.AppendDefinitions | langchain-creator-system/creator_system/token_rules.py:71-74 | the sample loop appends one entry per definition line, in order |
| TokenRules.ListedAppend | langchain-creator-system/creator_system/token_rules.py:71-74 | listing two runs of lines lists one after the other |
| TokenRules.ListedSpec | langchain-creator-system/creator_system/token_rules.py:71-74 | exactly the `class `/`def ` lines are listed, stripped and prefixed |
| TokenRules.CompactManifest | langchain-creator-system/creator_system/token_rules.py:60-80 | a long file's manifest has the header with its line count, then the key-components line, then definitions from its first 50 lines only, then the 3-line footer: between 5 and 55 lines |
| TokenRules.CompactKeepsNoReprint | langchain-creator-system/creator_system/token_rules.py:62-80 | a file passed through compact mode at the default limit never breaks the no-reprint rule |
| RequirementsExtractor.ExtractProjectRequest | langchain-creator-system/creator_system/requirements_extractor.py:16-34 | asking for the model extraction fails with `NotImplementedError`; otherwise the keyword extraction runs on the lower-cased lines |
| RequirementsExtractor.TemplateExtract | langchain-creator-system/creator_system/requirements_extractor.py:37-70 | the scan gives the template with one entry per matching line |
| RequirementsExtractor.TemplateSpec | langchain-creator-system/creator_system/requirements_extractor.py:45-66 | the defaults are kept; one input per webhook line; as many outputs as integrations; no kind has more entries than there are lines |
| RequirementsExtractor.CountAppend | langchain-creator-system/creator_system/requirements_extractor.py:59-66 | each line is counted on its own |
| RequirementsExtractor.WebhookDuplicatesKept | langchain-creator-system/creator_system/requirements_extractor.py:60-61 | a repeated webhook line adds a duplicate input |
| RequirementsExtractor.ExtractionIgnoresCase | langchain-creator-system/creator_system/requirements_extractor.py:43 | two requests that differ only in the case of ASCII letters extract the same project request |
| RequirementsExtractor.LoweredRequestSame | langchain-creator-system/creator_system/requirements_extractor.py:43 | a request and its lower-cased form extract the same project request |
| Text.StripIdempotent | backend/runner.py:95 | stripping twice is stripping once |
| Text.JoinSplit | langchain-creator-system/creator_system/token_rules.py:60 | joining the pieces of a split with its separator gives the text back |
| Text.LinesOfJoin | langchain-creator-system/creator_system/token_rules.py:46 | splitting newline-joined lines that contain no newline gives the lines back |
| Text.NatToStringValue | langchain-creator-system/creator_system/verifier.py:64 | the decimal text of a count reads back as that count |

## Left out

- The language model is not modelled. Its replies are a script, and an exhausted script answers with an error. The message history passed with each call (`state["messages"]`) is not modelled, because a scripted reply does not depend on it.
- `json.loads` of the plan and `json.dumps` of events and of the snapshot are not modelled. The plan decoding is a given map from plan text to steps or to an error message. Encoding is left abstract.
- The runner's constructor failure without an API key is not modelled, because it is an environment lookup.
- SQLAlchemy sessions, commits and the `background_tasks` registry are not modelled. `asyncio` tasks and the half-second sleep are not modelled. Each read is a snapshot of the store and each write is atomic.
- `uuid.uuid4()` is not modelled: `Store.CreateRun` takes the new id and requires that it is not in use.
- Timestamps and their ISO formatting are left out: `utcnow()` is a counter and each event's time is an opaque number.
- Server.EventGenerator: the real loop polls forever. The model observes finitely many polls and ends with `StillPolling` when none of them saw the run finish.
- Runner.StepChainRunner.StepLoop does not model the recursion limit of the graph library. The graph is compiled and invoked without a configuration, so the library's default limit of 25 supersteps applies. Each node execution is one superstep, so a plan of n steps needs 2 + 2n of them. In the program, a plan of about 12 or more steps makes the invocation raise a recursion error, which `run` reports as a failure. The model instead completes a plan of any length. The limit belongs to the library, not to the modelled code, and its exact boundary is not visible in the source.
- Runner.StepChainRunner.Graph does not model that recursion limit either: its completed outcome is promised for a plan of any length.
- Runner.StepChainRunner.Run does not model that recursion limit either: in the program a run with a plan of about 12 or more steps ends failed with the recursion error, while the model promises a completed run.
- Server.EventGenerator: every read is modelled as a fresh snapshot of the store. The stream in fact reuses one session, and re-selecting a `Run` already loaded in it may return its cached `status`. That caching is not modelled, so the model cannot show a stream that never closes for that reason.
- The SSE framing of `EventSourceResponse` is not modelled. The browser's reconnect and `onerror` are not modelled. The server's `error` event for a missing run goes to `onerror` on the page, not to `onmessage`, so the page model never sees it.
- Client.Label: JavaScript looks up object keys through the prototype chain, so a type such as `constructor` would show an inherited function. This is not modelled: unknown types are shown as themselves.
- The rest of the page is not modelled: rendering, `formatTimestamp`, progress bars, the form and clipboard handling.
- BlueprintVerifier.VerifyBlueprint does not model the Pydantic construction of `GeneratedBlueprint` or its "Schema validation failed" result. The model starts from a validated blueprint. On such a blueprint, the `key not in blueprint` half of the key check cannot fire, so only emptiness is checked.
- BlueprintVerifier.VerifyBlueprint: `workflow_graph` is modelled as a set of keys, because only its emptiness matters. `files` is a sequence of entries; the uniqueness of dictionary keys is not required.
- `load_verifier_prompt`, `load_extractor_prompt` and `validate_yaml` are not modelled, because they read files or YAML.
- `graph_template.py`, `OUTPUT_BUDGET_RULES` and `get_token_control_guidelines` are not modelled, because they are constants with no behaviour.
- Text.Lower maps only ASCII letters: Python's full Unicode case mapping is not modelled.
- The Pydantic validation of the extracted project request is not modelled, because every field it receives already has the declared type.

## Findings

| source | as written | input that shows it | evidently intended | confidence | as-written member | corrected member |
|---|---|---|---|---|---|---|
| backend/server.py:144-173 | each poll fetches the events, then reads the run's status, and breaks on a terminal status with no further fetch | the runner commits `run_completed` (backend/runner.py:242-250 writes the event before the status) after the stream's fetch and before its status read. The status read sees `completed` and the stream closes without sending `run_completed`. This assumes each status read sees the latest committed status. The stream reuses one session whose `Run` object was loaded at backend/server.py:128-131, and re-selecting it may not refresh an already-loaded `status`. In that case the stream would never close by itself, rather than drop `run_completed` | every event committed before the stream saw the run finish is delivered before the stream closes | not executed | Server.LostFinalEvent | Server.EventGeneratorFlushed |
