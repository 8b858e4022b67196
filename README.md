# HugAi hub orchestration core, modelled in Dafny

HugAi is a chat front end for multi-agent LLM schemes. A *scheme* (a
"solution") has a mode. In multi-agent mode a supervisor routes each request
to one worker. Agentic mode runs a single plan/act reasoning loop. Workflow
mode runs a fixed stage pipeline. This project models the core of the front
end and the back end's tool lookup, and proves properties about them:

- **AgentService.dfy**: the simulated agent back end (`simulateAgentResponse`).
  - It dispatches on the mode and runs one of three fixed scripts.
  - Each script emits progress steps to the page and returns a final answer.
  - Team mode routes by keyword; the agentic loop uses its own, narrower keyword set.
  - The steps the script hands to its callback become the returned `trace`.
- **StepLedger.dfy**: the upsert-by-id merge the chat page applies to every
  emitted step, and what that merge leaves after a whole run (the *ledger*).
- **Session.dfy**: the chat session (`ChatSession`) and its submit turn. It covers:
  - the guard;
  - the user message and the assistant placeholder;
  - step delivery;
  - the success write, or the fallback text on failure;
  - clearing the thinking flag.
- **Settings.dfy**: the settings panel's handlers:
  - provider/model choice;
  - mode templates and mode switching;
  - agent edit, add, delete and reorder;
  - scheme add and delete;
  - tool add, edit and delete;
  - the selection resync.
- **ToolRegistry.dfy**: the back end's `TOOL_MAP` and `get_tools_by_names`.
- **Types.dfy**: the shared records (messages, steps, schemes, agents, tools,
  configuration) and the `find` lookup on schemes.
- **Text.dfy**: the JavaScript string operations the core relies on:
  - `includes`;
  - `trim`, with the ECMAScript whitespace set;
  - decimal rendering of numbers.

Modelling conventions:

- **Step ids.** `generateId` draws step ids at random. Here the caller supplies
  them, in the order the script asks for them. Message ids are supplied the
  same way.
- **Timestamps.** All timestamps of one run are the single instant `now`.
- **The strategy seen by a submit turn.** A submit sees the strategy as a
  `StrategyRun`: the steps it delivered before its promise settled, and
  whether the promise resolved (with a text) or rejected.
- **The panel's selection.** Each panel handler takes the configuration and the
  panel's selected scheme id `sel`, and returns the new configuration. The
  panel reads the scheme it edits with a fallback to the first scheme
  (`EditedSolution`), but writes back only to schemes whose id is `sel`. The
  model keeps both halves as written, so with a stale selection an edit is
  dropped.
- **Optional fields.** An absent boolean flag (`isSystem`, `isThinking`,
  `requiresKey`, `isCustom`) is `false`. Absent `steps` is `[]`. Absent
  `output`/`apiKey` is `None`.

## Model

| member | source | states |
|---|---|---|
| Text.Contains | hugai-hub/services/mockAgentService.ts:35-38 | `includes` (also the agentic test at line 164): a marker is found only in a text at least as long, and the empty marker is found everywhere |
| Text.ContainsAt | hugai-hub/services/mockAgentService.ts:35 | `includes` holds exactly when some suffix of the text starts with the marker |
| Text.ContainsInside | hugai-hub/services/mockAgentService.ts:35 | a marker placed anywhere in a text is found by `includes` |
| Text.TrimStart | App.tsx:194 | dropping leading whitespace never lengthens the text |
| Text.TrimEnd | App.tsx:194 | dropping trailing whitespace never lengthens the text |
| Text.Trim | App.tsx:194 | `trim` never lengthens the text, and a non-empty result neither starts nor ends with whitespace. Whitespace (`IsWhitespace`) is the ECMAScript WhiteSpace and LineTerminator set that `String.prototype.trim` strips: tab, line feed, vertical tab, form feed, carriage return, space, U+00A0, U+1680, U+2000-U+200A, U+2028, U+2029, U+202F, U+205F, U+3000 and U+FEFF |
| Text.TrimStartSuffix | App.tsx:194 | trimming the front leaves a suffix whose dropped prefix is all whitespace and whose first character is not whitespace |
| Text.TrimEndPrefix | App.tsx:194 | trimming the end leaves a prefix whose dropped suffix is all whitespace and whose last character is not whitespace |
| Text.TrimEmptyIffBlank | App.tsx:194 | `!input.trim()` holds exactly when the input consists of whitespace only |
| Text.BlankConcat | App.tsx:194 | a concatenation is whitespace-only iff both parts are |
| Text.Digit | hugai-hub/services/mockAgentService.ts:113 | a digit below ten renders as the character `0`..`9` whose code lies that far above `0`; used by the `Step ${i + 1}` stage text and the `Step n` agent names of SettingsPanel.tsx:180 |
| Text.NatToDecimal | hugai-hub/components/SettingsPanel.tsx:180 | the rendering of a number is non-empty, all digits, and has no leading zero unless the number is 0 |
| Text.NatToDecimalValue | hugai-hub/components/SettingsPanel.tsx:180 | reading the rendered digits back as a decimal number gives the number itself |
| Types.FindSolution | App.tsx:190 | `find` returns None iff no scheme has the id, and otherwise the scheme at the first index carrying it |
| Types.FindSolutionAt | App.tsx:190 | `find` returns the scheme at the first index carrying the id |
| StepLedger.Ids | App.tsx:226 | the id list has one entry per step, position by position |
| StepLedger.IndexOfId | App.tsx:226 | `findIndex` gives the first position holding the id, and -1 iff the id is absent |
| StepLedger.Upsert | App.tsx:225-233 | a known id replaces its first entry in place with the length unchanged; a new id is appended; every other entry is unchanged |
| StepLedger.UpsertFresh | App.tsx:231-232 | a step with a new id is appended at the end |
| StepLedger.UpsertAt | App.tsx:227-230 | a step whose id first occurs at k replaces exactly position k |
| StepLedger.UpsertIds | App.tsx:225-233 | the ids after an upsert are the old ids, plus the new id at the end when it was absent; distinct ids stay distinct |
| StepLedger.UpsertSameIdTwice | App.tsx:225-233 | re-emitting an id overrides the earlier emission: two merges under one id equal merging only the later event |
| StepLedger.MergeAll | App.tsx:223-237 | folding the merge over a run keeps the ledger's ids distinct |
| StepLedger.Ledger | App.tsx:206-237 | the ledger a run leaves on a fresh placeholder never holds two entries with one id |
| StepLedger.LedgerSnoc | App.tsx:223-237 | one more event extends the ledger by exactly one upsert |
| StepLedger.LedgerSnocFresh | App.tsx:231-232 | an event with an id not yet in the ledger is appended to it |
| StepLedger.LedgerSnocAt | App.tsx:227-230 | an event whose id sits at k in the ledger replaces entry k |
| StepLedger.LedgerCloseLast | App.tsx:227-230 | a completion following its own opening replaces that opening entry, which was the last one |
| StepLedger.LedgerPair | App.tsx:223-237 | an opening/closing pair under a new id adds just the closing event to the ledger |
| StepLedger.TwoPairsLedger | App.tsx:223-237 | two pairs under two distinct ids leave exactly the two closing events, in order |
| StepLedger.ThreePairsLedger | App.tsx:223-237 | three pairs under three distinct ids leave exactly the three closing events, in order |
| StepLedger.LastWith | App.tsx:223-237 | the last event carrying an id belongs to the run and has that id; there is none iff the run never emits the id |
| StepLedger.IdsOfPrefix | App.tsx:223-237 | dropping the last event drops the last id |
| StepLedger.LedgerIds | App.tsx:223-237 | the ledger holds each emitted id once, in order of first appearance |
| StepLedger.LastEventsStep | App.tsx:223-237 | one more delivered event keeps every ledger entry equal to the last event emitted for its id |
| StepLedger.LedgerIsLastEvents | App.tsx:223-237 | each ledger entry is the last event emitted for its id |
| StepLedger.LedgerOfSettledRun | App.tsx:223-237 | if every emitted id's last event is `completed`, every ledger entry is `completed` |
| AgentService.AgentDisplayName | hugai-hub/services/mockAgentService.ts:53-58 | the `agentNames` table lists every kind except `custom_agent` and `workflow_step` |
| AgentService.RouteWorker | hugai-hub/services/mockAgentService.ts:32-41 | first match wins: search iff a search marker ('搜索', '查', '最新'); RAG iff no search marker but a knowledge marker ('文档', '知识库', 'RAG'); chat iff neither |
| AgentService.SelectWorker | hugai-hub/services/mockAgentService.ts:32-41 | the supervisor's choice is the routed worker, and its verdict text is that worker's routing message |
| AgentService.RunTeam | hugai-hub/services/mockAgentService.ts:18-98 | exactly four events: supervisor running, supervisor completed under the same id, worker running, worker completed under the worker id. The worker is the routed kind. Only the worker's completion carries an output. The answer is the routed worker's final response. |
| AgentService.RunWorkflow | hugai-hub/services/mockAgentService.ts:102-135 | exactly six events, whatever the input: stage i is a `workflow_step` running event at 2i and its completion under the same id at 2i+1, in stage order; the answer is the pipeline text of line 134 with the input embedded |
| AgentService.RunAgentic | hugai-hub/services/mockAgentService.ts:138-208 | four `custom_agent` events: the plan pair, then the act pair, which is the tool branch iff the input has '搜索' or '查'; the answer matches the branch |
| AgentService.SimulateAgentResponse | hugai-hub/services/mockAgentService.ts:11-209 | 'multi-agent' runs the team script, 'workflow' the pipeline, anything else the agentic loop, and the answer is that mode's answer to the input. Every emitted id's last event is `completed`. No step is ever `pending` or `failed`. |
| AgentService.TwoPairs | hugai-hub/services/mockAgentService.ts:18-208 | four events forming two running/completed pairs, each under one id, are a paired run |
| AgentService.TeamIsPaired | hugai-hub/services/mockAgentService.ts:20-96 | the team trace is two running/completed pairs: the supervisor's, then the worker's |
| AgentService.AgenticIsPaired | hugai-hub/services/mockAgentService.ts:140-205 | the agentic trace is two running/completed pairs: the plan, then the act or reflection |
| AgentService.WorkflowIsPaired | hugai-hub/services/mockAgentService.ts:105-132 | the workflow trace is a sequence of running/completed pairs under one id each |
| AgentService.LastWithConcat | hugai-hub/services/mockAgentService.ts:11-209 | the last event of an id in a concatenation comes from the later part whenever that part emits the id |
| AgentService.PairedRunLastCompleted | hugai-hub/services/mockAgentService.ts:11-209 | in a run of running/completed pairs, every emitted id's last event is a completion |
| AgentService.PairedRunSettled | hugai-hub/services/mockAgentService.ts:11-209 | a run of running/completed pairs is settled and emits only those two statuses |
| AgentService.PairedRunStatuses | hugai-hub/services/mockAgentService.ts:11-209 | a run of running/completed pairs emits only `running` and `completed` |
| AgentService.TeamLedger | hugai-hub/services/mockAgentService.ts:20-96 | with two distinct ids, the page's ledger after a team run is the supervisor's completion and then the routed worker's |
| AgentService.WorkflowLedger | hugai-hub/services/mockAgentService.ts:105-132 | with distinct stage ids, the ledger after a workflow run is the three stage completions in stage order |
| AgentService.AgenticLedger | hugai-hub/services/mockAgentService.ts:140-205 | with two distinct ids, the ledger after an agentic run is the plan completion, then the act/reflect completion |
| AgentService.ToolCallImpliesSearchRoute | hugai-hub/services/mockAgentService.ts:35-164 | an input that makes the agentic loop call a tool is routed to the search worker in team mode |
| AgentService.LatestOnlyDiverges | hugai-hub/services/mockAgentService.ts:35-164 | "最新消息" goes to the search worker in team mode but to the reflection branch in agentic mode |
| AgentService.SearchRequestExample | hugai-hub/services/mockAgentService.ts:35-164 | a request containing '搜索' goes to the search worker and takes the tool branch |
| Session.TerminalContent | App.tsx:239-254 | a resolved strategy's text becomes the content; a rejected one yields "系统遇到错误，请稍后再试。" |
| Session.MergeStep | App.tsx:223-237 | one delivered step is upserted into the steps of the messages carrying the assistant id; every other message is unchanged |
| Session.MergeTrace | App.tsx:218-238 | after a whole run the target message's steps are the fold of all its events; other messages are untouched |
| Session.MergeTraceSnoc | App.tsx:223-237 | delivering one more step is one more callback |
| Session.Finish | App.tsx:241-254 | the terminal write sets the content and clears `isThinking` on the assistant message only |
| Session.TurnTranscript | App.tsx:196-254 | with fresh ids, a turn appends exactly the user message and an assistant message. That message holds the final content and the run's ledger, and is no longer thinking. |
| Session.DeliverSteps | App.tsx:218-238 | delivering each step in order yields the fold of the whole trace |
| Session.SettleTurn | App.tsx:218-254 | the awaited run with its step callback, then the terminal write, yields the settled transcript: every step folded into the target, then the final content written to it |
| Session.ChatSession.constructor | App.tsx:20-29 | the page starts with the welcome message only, an empty input, and not thinking |
| Session.ChatSession.Submit | App.tsx:192-258 | refused, with nothing changed, iff the trimmed input is empty, a run is in flight, or no scheme matches `activeSolutionId`. Otherwise: input cleared, user message then placeholder appended, steps folded in, success text or fallback written, session `isThinking` false. |
| Session.ChatSession.ActiveSolution | App.tsx:190 | the active scheme is absent iff no scheme carries `activeSolutionId`; otherwise it is a scheme of the configuration carrying that id |
| Session.ChatSession.SelectSolution | App.tsx:374 | the scheme picker changes only `activeSolutionId`, and the active scheme becomes the first scheme carrying the picked id |
| Session.ChatSession.CanSubmit | App.tsx:194 | a submit is accepted iff the input is not all whitespace, no run is in flight, and an active scheme exists |
| Session.ChatSession.SubmitSimulated | App.tsx:218-222 | a turn sends the user's text to the simulated back end in the active scheme's mode, leaving the configuration as it was. With fresh ids the earlier messages are kept, the user's message follows them, and the reply is last: an assistant message stamped with the turn's time, not thinking, so the transcript grows by exactly those two messages. Its content is that mode's answer to the text, and its steps are the ledger of that mode's run: distinct ids, all completed. |
| Settings.ProviderModels | hugai-hub/components/SettingsPanel.tsx:13-33 | a provider the table does not list has no models |
| Settings.HandleProviderChange | hugai-hub/components/SettingsPanel.tsx:55-64 | the model becomes the provider's first listed model, or '' when it lists none; only provider and model change |
| Settings.ProviderChangeIdempotent | hugai-hub/components/SettingsPanel.tsx:55-64 | picking the same provider twice is picking it once |
| Settings.ProviderModelIsListed | hugai-hub/components/SettingsPanel.tsx:55-64 | the chosen model is one the provider lists, unless it lists none |
| Settings.TemplateAgents | hugai-hub/components/SettingsPanel.tsx:82-135 | team: [supervisor (system), worker_1]; agentic: [primary_brain (system)]; workflow: [step_1, step_2], both `workflow_step` and not system; all enabled |
| Settings.EditedSolution | hugai-hub/components/SettingsPanel.tsx:48 | the edited scheme is the selected one when it exists, else the first; there is none iff no scheme exists |
| Settings.ResyncSelection | hugai-hub/components/SettingsPanel.tsx:40-46 | a valid selection is kept; otherwise it moves to the first scheme, so with any scheme the selection is valid |
| Settings.ResyncedSelectionIsEdited | hugai-hub/components/SettingsPanel.tsx:40-48 | after a resync the edited scheme is the one the writes reach |
| Settings.Patch | hugai-hub/components/SettingsPanel.tsx:149 | spreading a partial: each field present in it overwrites the scheme's, each absent field is kept, and the id and tools are always kept |
| Settings.UpdateActiveSolution | hugai-hub/components/SettingsPanel.tsx:147-152 | only schemes carrying the selected id are patched; all other schemes and all other settings are unchanged |
| Settings.FindAfterUpdate | hugai-hub/components/SettingsPanel.tsx:147-152 | after an update, the selected scheme is found patched |
| Settings.StaleSelectionDropsUpdate | hugai-hub/components/SettingsPanel.tsx:147-152 | with no scheme carrying the selected id, an update changes nothing |
| Settings.ModeChange | hugai-hub/components/SettingsPanel.tsx:155-165 | switching to the edited scheme's own mode is a no-op; otherwise the selected scheme gets the new mode and exactly the template agents; other schemes are unchanged |
| Settings.ModeChangeIdempotent | hugai-hub/components/SettingsPanel.tsx:155-165 | switching to a mode twice is switching once |
| Settings.SetAgentField | hugai-hub/components/SettingsPanel.tsx:170 | editing a field changes just that field; id, type and system flag stay |
| Settings.UpdateSolutionAgent | hugai-hub/components/SettingsPanel.tsx:168-172 | the selected scheme's agents become the edited scheme's agents with exactly one agent's field changed |
| Settings.NewAgent | hugai-hub/components/SettingsPanel.tsx:175-182 | the new agent is enabled and not system. Its type is `workflow_step` iff the mode is workflow. In workflow it is named "Step n+1"; otherwise "New Worker". |
| Settings.AddAgent | hugai-hub/components/SettingsPanel.tsx:174-185 | exactly one new agent is appended to the selected scheme; nothing else changes |
| Settings.RemoveAt | hugai-hub/components/SettingsPanel.tsx:191 | the element at the index is dropped and the rest keep their order; an index out of range changes nothing |
| Settings.RemoveAtMultiset | hugai-hub/components/SettingsPanel.tsx:191 | removal takes exactly that one element out of the multiset |
| Settings.DeleteAgent | hugai-hub/components/SettingsPanel.tsx:187-193 | deleting a system agent changes nothing; otherwise exactly that agent is removed from the selected scheme, order kept |
| Settings.AddThenDeleteAgent | hugai-hub/components/SettingsPanel.tsx:174-193 | with distinct scheme ids, adding an agent and then deleting it restores the configuration |
| Settings.TemplateHeadIsPinned | hugai-hub/components/SettingsPanel.tsx:82-193 | after switching to team or agentic mode, the head agent cannot be deleted |
| Settings.Move | hugai-hub/components/SettingsPanel.tsx:195-203 | swaps with the neighbour in that direction when there is one, otherwise identity; always the same length |
| Settings.MovePermutes | hugai-hub/components/SettingsPanel.tsx:195-203 | a move is a permutation: the multiset of agents is unchanged |
| Settings.Swap | hugai-hub/components/SettingsPanel.tsx:198-201 | exchanging two positions keeps the multiset of elements |
| Settings.MoveUpThenDown | hugai-hub/components/SettingsPanel.tsx:195-203 | moving up and then back down restores the list |
| Settings.MoveAgent | hugai-hub/components/SettingsPanel.tsx:195-203 | the selected scheme's agents become the reordered list, a permutation of the edited scheme's agents |
| Settings.RemoveById | hugai-hub/components/SettingsPanel.tsx:143 | a scheme survives iff it was present and does not carry the id; never longer |
| Settings.RemoveByIdAppend | hugai-hub/components/SettingsPanel.tsx:143 | the filter keeps survivors in their original order |
| Settings.RemoveByIdLength | hugai-hub/components/SettingsPanel.tsx:143 | with distinct ids, an existing id removes exactly one scheme and a missing id removes none |
| Settings.DeleteSolution | hugai-hub/components/SettingsPanel.tsx:138-145 | refused with at most one scheme; otherwise every scheme carrying the id is removed and nothing else changes |
| Settings.DeleteSolutionKeepsOne | hugai-hub/components/SettingsPanel.tsx:138-145 | with distinct ids, deletion never leaves zero schemes |
| Settings.DeletingActiveStrandsChat | hugai-hub/components/SettingsPanel.tsx:138-145 | deleting the chat's active scheme leaves `activeSolutionId` matching no scheme, so the chat guard (App.tsx:194) refuses every submit |
| Settings.AddSolution | hugai-hub/components/SettingsPanel.tsx:68-80 | one team scheme with the team template and no tools is appended under the new id, which becomes the selection |
| Settings.AddedSolutionIsEdited | hugai-hub/components/SettingsPanel.tsx:68-80 | with a fresh id, the new scheme is the one the panel edits next |
| Settings.AddTool | hugai-hub/components/SettingsPanel.tsx:206-216 | one enabled custom keyless tool with id "my_new_tool_" and a roll in 0..999 is appended |
| Settings.UpdateTool | hugai-hub/components/SettingsPanel.tsx:218-222 | exactly one field of one tool changes |
| Settings.DeleteTool | hugai-hub/components/SettingsPanel.tsx:224-227 | exactly the tool at the index is removed, as a multiset and in order; an index out of range changes nothing |
| Settings.AddThenDeleteTool | hugai-hub/components/SettingsPanel.tsx:206-227 | adding a tool and deleting the last one restores the configuration |
| ToolRegistry.GetToolsByNames | backend/core/tools.py:38-39 | never longer than the names; every result is a registered name's tool; every registered name's tool appears |
| ToolRegistry.GetToolsAppend | backend/core/tools.py:39 | the lookup distributes over concatenation, so results follow the order of the names |
| ToolRegistry.AllRegistered | backend/core/tools.py:39 | when all names are registered, result i is name i's tool, so duplicates give duplicates |
| ToolRegistry.NoneRegistered | backend/core/tools.py:39 | with no registered name, in particular `[]`, the result is `[]` |
| ToolRegistry.RegistryKeys | backend/core/tools.py:32-36 | the keys are exactly `duckduckgo_search`, `retrieve_documents` and `calculator`. The front-end id `duckduckgo` resolves to nothing, and the default team scheme's tools resolve to the calculator alone. |

## Left out

- Rendering:
  - the JSX of App.tsx and SettingsPanel.tsx;
  - ChatMessage.tsx, ThinkingProcess.tsx and KnowledgeBase.tsx (presentation, clipboard and a timer-driven fake upload list);
  - scrolling and focus effects.
- Latency: the `delay` waits in the simulated back end carry no logic.
- `Date.now()`: every reading within one run or turn is collapsed to one caller-supplied instant `now`. The agent stamp in `AddAgent` is a supplied natural number.
- `Math.random`: step ids, message ids, new scheme ids and the tool-id roll are supplied by the caller. Id distinctness is a precondition where a property needs it.
- React: state batching and async interleaving of `handleSubmit` are not modelled. A turn runs sequentially, so the brief `isThinking == true` window is only an intermediate state inside `Submit`.
- `Session.ChatSession.constructor`: the welcome text and the default configuration are parameters, not the literals of App.tsx:22-157.
- The `console.error` logging and the `alert` shown when deleting the last scheme are not modelled.
- `AgentStep.agent` is restricted to the six agent kinds. The source types it as any string.
- The temperature is carried as an opaque real and never computed on. The plain-field edits through `handleChange` (model name, base URL, API key, temperature) are not modelled.
- `Settings.ProviderModels` models only the model values, not their display labels. A provider name that collides with an inherited JavaScript object property is not modelled.
- `Settings.SolutionPatch` carries only the fields the panel ever writes: name, description, mode and agents. A partial that rewrites `id` or `enabledTools` is not modelled.
- Index preconditions on the handlers, because the panel only ever passes an index taken from the list it renders (the `.map` callbacks at SettingsPanel.tsx:511-561 and :643-693):
  - `UpdateSolutionAgent`, `DeleteAgent` and `MoveAgent` require an index inside the edited scheme's agent list.
  - `UpdateTool` requires an index inside the tool list.

  Out of range, the source behaves in ways the model does not capture. `updateSolutionAgent` (line 170) and `handleToolUpdate` (line 220) spread `undefined` and write a partial object into a sparse array. `moveAgent` (lines 198-200) swaps in an `undefined` slot. Only `handleDeleteAgentFromSolution` (lines 188-189) throws, when it reads `isSystem` of `undefined`.
- Every handler that reads the edited scheme requires at least one scheme, because the source reads `.mode` or `.agents` of `undefined` otherwise and throws.
- LangChain/LangGraph wiring, the FastAPI server and the LLM calls (nodes.py, workflow.py, server.py, state.py) are foreign-library code.
- The bodies of the back end's tools (a network search and `eval`) are not part of this model; a tool is represented only by its registry entry.
