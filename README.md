# Chat workbench orchestration, modelled in Dafny

This project models the state and handlers of `ChatWorkbenchComponent`, the
Angular component behind an AI chat workbench. A prompt starts an *agent run*
with three sub-agents (Feature Generator, Rule Drafting, Dataset Builder).
After the user approves the run, each sub-agent's timer callback attaches one
generated *entity* to it: a feature, a rule or a dataset. An *activity
summary* ledger records each step. Its entries may link to a generated
entity by id and carry that entity's saved/unsaved mark. The user can stop,
approve or reject runs and single sub-agents, send extra input to a
sub-agent, and save, delete or revert generated entities. A side rail keeps
a searchable chat history.

Modules:

- `Types`: the records of the component as datatypes: `Run`, `SubAgent`,
  `Entity`, `SummaryItem` and `ChatItem`, with statuses and kinds.
- `Decimal`: the decimal text of a non-negative number. Run ids, chat ids and
  entity ids are built from it. It comes with its parse-back inverse.
- `Text`: JavaScript `trim`, ASCII lower-casing, substring search and the
  60-character run-name shortening.
- `Lists`: the `filter(x => key(x) !== id)` that removes everything linked to
  an id.
- `Entities`: the flattened entity list (`allEntities`), removal of an id
  from every sub-agent, marking one entity saved, and lookup by id.
- `Ledger`: the summary entry linked to an entity, and its `isSaved` mark.
- `Agents`: the run and sub-agent transitions as functions of a `Run`:
  creating, stopping, approving, rejecting, completing callback `idx`,
  re-evaluating (`maybeCompleteRun`) and the sub-agent actions. It also holds
  the well-formedness invariant of the runs list.
- `RunProperties`: lemmas about those transitions, alone and in sequence.
- `Lifecycle`: delete, save and revert of an entity on a `Workspace` value,
  which holds the runs, the summary and the preview state.
- `Chats`: the seeded history, the search filter and new chats.
- `Workbench`: class `ChatWorkbench`, with the component's fields and one
  method per handler and per two-way binding. The methods update the fields
  step by step, with loops where the source loops. Each method is proved
  against the functions above. Every method that changes the runs or the
  summary also keeps the invariant `Valid()`. That invariant says the runs
  are well formed, newest first, and every summary anchor names an existing
  run.

The component refers to runs, sub-agents and entities by object reference.
The model refers to runs and sub-agents by position (run `ri`, sub-agent
`si`), and saving refers to an entity by its position `k` within its
sub-agent. `DeleteEntity`, `RemoveEntityEverywhere` and `OpenPreview` take an
`Entity` value and use only its id.
The clock values (`Date.now()`, `new Date()`) are parameters named `now`.
Each `setTimeout` callback body of `approve` is its own method,
`CompleteSubAgent(ri, idx, now)`. It may be called in any order and at any
time, including after a stop.

## Model

| member | source | states |
|---|---|---|
| Decimal.DigitChar | chat-workbench.component.ts:336 | a digit below ten becomes one character between '0' and '9' |
| Decimal.NatToString | chat-workbench.component.ts:336 | the text of a number is non-empty, all decimal digits, and starts with '0' exactly when the number is zero |
| Decimal.ParseNatToString | chat-workbench.component.ts:336 | reading the decimal text of `n` back gives `n` |
| Decimal.NatToStringInjective | chat-workbench.component.ts:336 | different numbers have different decimal texts |
| Text.TrimStart | chat-workbench.component.ts:335 | the result is a suffix of the input that starts with a non-whitespace character, only whitespace was removed, and it is empty when the input is all whitespace |
| Text.TrimEnd | chat-workbench.component.ts:335 | the result is a prefix of the input that ends with a non-whitespace character, and only whitespace was removed |
| Text.BlankIffAllWhitespace | chat-workbench.component.ts:335 | `!prompt.trim()` holds exactly when every character of the prompt is JavaScript whitespace |
| Text.LowerAscii | chat-workbench.component.ts:326 | lower-casing keeps the length and maps each A-Z to a-z, leaving every other character alone |
| Text.Shorten | chat-workbench.component.ts:339 | a prompt of at most 60 characters is kept; a longer one becomes its first 60 characters followed by '…' |
| Lists.Drop | chat-workbench.component.ts:390-392 | the filtered list is no longer than the input, and an element is in it exactly when it is in the input and not linked to the id |
| Lists.DropAppend | chat-workbench.component.ts:390 | filtering a concatenation is the concatenation of the filtered parts |
| Lists.DropNothing | chat-workbench.component.ts:392 | a list with nothing linked to the id is unchanged by the filter |
| Lists.DropTwice | chat-workbench.component.ts:389-393 | filtering twice by the same id is filtering once |
| Lists.DropReplaced | chat-workbench.component.ts:388-392 | replacing an element linked to the id by another linked to it does not change the filtered list |
| Entities.AgentEntityCountSplit | chat-workbench.component.ts:397 | the entity count of a sub-agent list is the count of all but the last plus the last one's list length |
| Entities.EntityCountSplit | chat-workbench.component.ts:397 | the entity count of a run list is the count of all but the last plus the last run's count |
| Entities.AgentEntitiesLength | chat-workbench.component.ts:397 | the entities of a run's sub-agents number the sum of their list lengths |
| Entities.EntitiesInLength | chat-workbench.component.ts:397 | `allEntities()` is as long as all the entity lists together |
| Entities.InAgentEntities | chat-workbench.component.ts:397 | an entity is among a run's entities exactly when one of its sub-agents holds it |
| Entities.InEntitiesIn | chat-workbench.component.ts:397 | an entity is in `allEntities()` exactly when some sub-agent of some run holds it |
| Entities.PurgedAgentEntities | chat-workbench.component.ts:390 | removing an id from each sub-agent removes it from their flattened entities, keeping the rest in order |
| Entities.PurgedEntities | chat-workbench.component.ts:390 | after the removal loop, `allEntities()` is the old one with the id filtered out |
| Entities.PurgeTwice | chat-workbench.component.ts:390 | running the removal loop twice for one id is running it once |
| Entities.SetSavedSpec | chat-workbench.component.ts:388 | saving an entity keeps every list's length and order and every id; every run field and every sub-agent field other than the entity lists is kept; only that entity changes, and only its saved flag, which becomes true |
| Entities.FindById | chat-workbench.component.ts:396 | the lookup returns the first entity with the id, or nothing when no entity has it |
| Ledger.FirstLinked | chat-workbench.component.ts:388 | the lookup returns the position of the first summary entry linked to the id, or nothing when none is |
| Ledger.MarkSaved | chat-workbench.component.ts:388 | the summary keeps its length; only `isSaved` of the first entry linked to the id can change, and that entry ends up marked saved |
| Agents.BlueprintOf | chat-workbench.component.ts:360-377 | the callbacks of sub-agents 0, 1 and 2 generate a feature, a rule and a dataset |
| Agents.Finish | chat-workbench.component.ts:360-377 | a callback keeps the run's id, anchor and number of sub-agents |
| Agents.NewRunSpec | chat-workbench.component.ts:336-347 | a new run `n` has id 'r'+n and anchor 'anchor-r'+n, the prompt's shortened name, is Running, not stopped and awaiting approval, starts at `now`, and has three Idle sub-agents with ids suffixed -a, -b, -c, their fixed names, no approval flag, empty input, empty responses and no entities |
| Agents.RunIdInjective | chat-workbench.component.ts:336 | runs created at different list lengths get different ids |
| Agents.AnchorIdInjective | chat-workbench.component.ts:337 | runs created at different list lengths get different anchors |
| Agents.RunIdsDistinct | chat-workbench.component.ts:336-348 | in a well-formed run list, no two runs share an id or an anchor |
| RunProperties.StopSpec | chat-workbench.component.ts:355 | a stopped run is Stopped and not awaiting approval; each Completed sub-agent stays Completed and every other one is Stopped; count, order and all other fields are kept |
| RunProperties.StopIsFinal | chat-workbench.component.ts:355 | after a stop every sub-agent is Completed or Stopped, re-evaluation changes nothing, and stopping again changes nothing |
| RunProperties.SettleSpec | chat-workbench.component.ts:381 | only the status can change; it becomes Completed exactly when every sub-agent is Completed or Stopped and the run is not Stopped; otherwise the run is unchanged; re-evaluating twice is re-evaluating once |
| RunProperties.ApproveSpec | chat-workbench.component.ts:356-359 | approval is cleared and every sub-agent is Running, whatever its status and whether or not approval was pending; nothing else changes |
| RunProperties.RejectSpec | chat-workbench.component.ts:380 | the run is Completed and not awaiting approval, nothing else about it changes (sub-agents, name, flags, start time), and re-evaluation keeps it |
| RunProperties.RejectFreshRun | chat-workbench.component.ts:380 | rejecting a new run completes it while its sub-agents stay Idle |
| RunProperties.FinishSpec | chat-workbench.component.ts:360-377 | callback `idx` completes its sub-agent with the callback's response and exactly one unsaved entity of its kind; other sub-agents are untouched; the summary entry links to that entity, is marked unsaved and uses the run's anchor |
| RunProperties.FinishUnfold | chat-workbench.component.ts:360-377 | proof helper: re-evaluation after a callback keeps the sub-agents the callback left |
| RunProperties.FinishWhileBusy | chat-workbench.component.ts:364 | while another sub-agent is neither Completed nor Stopped, a callback leaves the run's status alone |
| RunProperties.FinishWhenLast | chat-workbench.component.ts:364 | the callback of the last busy sub-agent completes a run that is not Stopped |
| RunProperties.SettleAgain | chat-workbench.component.ts:381 | re-evaluating after a change that keeps "all done" gives the same run as evaluating once at the end |
| RunProperties.ProducedIsDone | chat-workbench.component.ts:381 | replacing a sub-agent by a finished one keeps "all done" |
| RunProperties.FinishCommutes | chat-workbench.component.ts:360-377 | two callbacks of one run give the same run in either order |
| RunProperties.ProduceSpec | chat-workbench.component.ts:360-377 | a callback leaves its sub-agent Completed with one unsaved entity of its own kind |
| RunProperties.FirstCallbacksKeepStatus | chat-workbench.component.ts:356-377 | after approval, the first two of the three callbacks leave the run's status unchanged, in any order |
| RunProperties.ThreeCallbacksProduce | chat-workbench.component.ts:360-377 | once all three callbacks have fired, in any order, each sub-agent is Completed with one unsaved entity of its own kind: a feature, a rule and a dataset |
| RunProperties.ApprovedRunCompletes | chat-workbench.component.ts:356-381 | approving a run that is not Stopped and firing its three callbacks completes it exactly at the last callback |
| RunProperties.LateCompletionAfterStop | chat-workbench.component.ts:355-377 | a callback after a stop still completes its sub-agent and attaches its entity; the run stays Stopped |
| RunProperties.StoppedStaysStopped | chat-workbench.component.ts:355-385 | a Stopped run stays Stopped under every transition except reject, which makes it Completed |
| RunProperties.HaltLeavesRunOpen | chat-workbench.component.ts:382 | stopping the last running sub-agent leaves every sub-agent done but the run Running, though re-evaluation would complete it |
| RunProperties.RejectAgentLeavesRunOpen | chat-workbench.component.ts:384 | rejecting the last running sub-agent leaves every sub-agent done but the run Running, though re-evaluation would complete it |
| RunProperties.HaltSpec | chat-workbench.component.ts:382 | stopping a sub-agent makes it Stopped; every other field and sub-agent and the run's status are kept |
| RunProperties.RejectAgentSpec | chat-workbench.component.ts:384 | rejecting a sub-agent makes it Completed with its approval cleared; every other field and sub-agent and the run's status are kept |
| RunProperties.ApproveAgentSpec | chat-workbench.component.ts:383 | approving a sub-agent marks it Running and clears its approval flag; its response and entities and every other sub-agent and run field are kept, and the run is not re-evaluated |
| RunProperties.SendInputSpec | chat-workbench.component.ts:385 | empty input changes nothing; otherwise the marker and the input are appended to the old response and the input is cleared, with nothing else changed; sending twice is sending once |
| RunProperties.WhitespaceInputIsSent | chat-workbench.component.ts:385 | whitespace-only input is appended to the response, unlike a blank prompt, which is ignored |
| RunProperties.RunTransitionsKeepWellFormed | chat-workbench.component.ts:355-381 | stop, approve, reject and re-evaluation keep a run well formed |
| RunProperties.NewRunKeepsWellFormed | chat-workbench.component.ts:348 | putting the next new run in front keeps the run list well formed |
| RunProperties.StartEntrySpec | chat-workbench.component.ts:349 | the start entry of the next run is an analysis entry anchored to that run (anchor number count + 1), linked to no entity and with no saved flag |
| RunProperties.StartEntryResolves | chat-workbench.component.ts:349 | prepending the start entry of the next run keeps every summary anchor naming an existing run |
| RunProperties.FinishKeepsWellFormed | chat-workbench.component.ts:360-377 | a callback keeps its run well formed |
| RunProperties.AgentActionsKeepWellFormed | chat-workbench.component.ts:382-385 | the sub-agent actions keep the run well formed |
| Lifecycle.DeleteSpec | chat-workbench.component.ts:389-393 | after a delete no entity and no summary entry carries the id; the summary and the flattened entity list are the order-keeping filter of the old ones; each run and sub-agent keeps every field except that each sub-agent's entity list is filtered; the preview closes exactly when it showed that entity |
| Lifecycle.DeleteTwice | chat-workbench.component.ts:389-393 | deleting twice is deleting once |
| Lifecycle.SaveThenDelete | chat-workbench.component.ts:388-393 | saving and then deleting an entity is deleting it |
| Lifecycle.SaveSpec | chat-workbench.component.ts:388 | saving marks the entity and the first summary entry linked to it as saved; every list keeps its length and order; the preview is unchanged |
| Lifecycle.RevertSpec | chat-workbench.component.ts:396 | revert is a no-op without a usable link or without an entity carrying the id; otherwise it keeps a saved first match and deletes an unsaved one |
| Lifecycle.RevertSavedKeeps | chat-workbench.component.ts:396 | reverting the entry of a saved entity changes nothing |
| Lifecycle.RevertUnsavedRemoves | chat-workbench.component.ts:396 | reverting the entry of a listed, unsaved entity is deleting it: the entity and every entry linked to it are gone |
| Chats.MatchingChats | chat-workbench.component.ts:326 | the filtered history is no longer than the history, and holds exactly the chats whose lower-cased title contains the search text |
| Chats.MatchingAppend | chat-workbench.component.ts:326 | filtering a concatenation is concatenating the filtered parts, so the kept chats stay in history order |
| Chats.MatchingSingle | chat-workbench.component.ts:326 | a single chat is kept exactly when its lower-cased title contains the search text |
| Chats.EmptySearchKeepsAll | chat-workbench.component.ts:326 | an empty search keeps the whole history, in order |
| Agents.NewRun | chat-workbench.component.ts:336-347 | no contract; specified by Agents.NewRunSpec |
| Agents.StartEntry | chat-workbench.component.ts:349 | no contract; specified by RunProperties.StartEntrySpec, RunProperties.StartEntryResolves and Workbench.ChatWorkbench.SendPrompt |
| Agents.Stop | chat-workbench.component.ts:355 | no contract; specified by RunProperties.StopSpec and RunProperties.StopIsFinal |
| Agents.Approve | chat-workbench.component.ts:356-359 | no contract; specified by RunProperties.ApproveSpec |
| Agents.Reject | chat-workbench.component.ts:380 | no contract; specified by RunProperties.RejectSpec |
| Agents.Settle | chat-workbench.component.ts:381 | no contract; specified by RunProperties.SettleSpec |
| Agents.Produce | chat-workbench.component.ts:360-374 | no contract; specified by RunProperties.ProduceSpec and RunProperties.FinishSpec |
| Agents.CompletionEntry | chat-workbench.component.ts:363-375 | no contract; specified by RunProperties.FinishSpec |
| Agents.Halt | chat-workbench.component.ts:382 | no contract; specified by RunProperties.HaltSpec and RunProperties.HaltLeavesRunOpen |
| Agents.ApproveAgent | chat-workbench.component.ts:383 | no contract; specified by RunProperties.ApproveAgentSpec |
| Agents.RejectAgent | chat-workbench.component.ts:384 | no contract; specified by RunProperties.RejectAgentSpec and RunProperties.RejectAgentLeavesRunOpen |
| Agents.EditInput | chat-workbench.component.ts:125 | no contract; specified by Workbench.ChatWorkbench.EditAdditionalInput |
| Agents.SendInput | chat-workbench.component.ts:385 | no contract; specified by RunProperties.SendInputSpec |
| Entities.EntitiesIn | chat-workbench.component.ts:397 | no contract; specified by Entities.EntitiesInLength and Entities.InEntitiesIn |
| Entities.PurgeRuns | chat-workbench.component.ts:390 | no contract; specified by Entities.PurgedEntities and Entities.PurgeTwice |
| Entities.SetSaved | chat-workbench.component.ts:388 | no contract; specified by Entities.SetSavedSpec |
| Lifecycle.Delete | chat-workbench.component.ts:389-393 | no contract; specified by Lifecycle.DeleteSpec |
| Lifecycle.Save | chat-workbench.component.ts:388 | no contract; specified by Lifecycle.SaveSpec |
| Lifecycle.Revert | chat-workbench.component.ts:396 | no contract; specified by Lifecycle.RevertSpec |
| Chats.SeedHistory | chat-workbench.component.ts:294-298 | no contract; specified by Workbench.ChatWorkbench.constructor |
| Chats.NewChatItem | chat-workbench.component.ts:329-330 | no contract; specified by Workbench.ChatWorkbench.NewChat |
| Workbench.ChatWorkbench.constructor | chat-workbench.component.ts:293-318 | the component starts with the three seeded chats, chat c1 active, an empty prompt, no runs, an empty summary and the preview closed |
| Workbench.ChatWorkbench.FilterHistory | chat-workbench.component.ts:326 | the filtered history is the history filtered by the lower-cased search text |
| Workbench.ChatWorkbench.EditHistorySearch | chat-workbench.component.ts:59 | the search box binding stores the text and the filtered history becomes the chats matching its lower-cased form |
| Workbench.ChatWorkbench.NewChat | chat-workbench.component.ts:328-332 | a "New Chat" with id 'c'+(old count+1) is put in front, becomes active, and the filtered history shows the whole history |
| Workbench.ChatWorkbench.EditPrompt | chat-workbench.component.ts:87 | the composer binding replaces only the prompt |
| Workbench.ChatWorkbench.SendPrompt | chat-workbench.component.ts:334-351 | a blank prompt changes nothing; otherwise the new run is put in front of the runs, its start entry in front of the summary, the prompt is cleared, and the invariant holds |
| Workbench.ChatWorkbench.StopRun | chat-workbench.component.ts:355 | the sub-agent loop leaves the run as the stop transition gives it; other runs are untouched |
| Workbench.ChatWorkbench.Approve | chat-workbench.component.ts:356-359 | the sub-agent loop leaves the run as the approve transition gives it; other runs are untouched |
| Workbench.ChatWorkbench.CompleteSubAgent | chat-workbench.component.ts:360-377 | callback `idx` replaces the run by its completed form, puts the callback's entry in front of the summary, and keeps the invariant |
| Workbench.ChatWorkbench.Reject | chat-workbench.component.ts:380 | the run is replaced by its rejected form; other runs are untouched |
| Workbench.ChatWorkbench.MaybeCompleteRun | chat-workbench.component.ts:381 | the run is replaced by its re-evaluated form; other runs are untouched |
| Workbench.ChatWorkbench.StopSubAgent | chat-workbench.component.ts:382 | only that sub-agent changes, to Stopped; the run is not re-evaluated |
| Workbench.ChatWorkbench.ApproveSubAgent | chat-workbench.component.ts:383 | only that sub-agent changes: its approval flag is cleared and it becomes Running |
| Workbench.ChatWorkbench.RejectSubAgent | chat-workbench.component.ts:384 | only that sub-agent changes: its approval flag is cleared and it becomes Completed; the run is not re-evaluated |
| Workbench.ChatWorkbench.EditAdditionalInput | chat-workbench.component.ts:125 | the input box binding replaces only that sub-agent's input buffer |
| Workbench.ChatWorkbench.SendAdditionalInput | chat-workbench.component.ts:385 | only that sub-agent changes, as the send-input transition gives it |
| Workbench.ChatWorkbench.OpenPreview | chat-workbench.component.ts:387 | the preview is open on the entity's id |
| Workbench.ChatWorkbench.ClosePreview | chat-workbench.component.ts:168 | the Close button hides the preview and leaves the previewed entity id as it was |
| Workbench.ChatWorkbench.AllEntities | chat-workbench.component.ts:397 | the three nested loops return every entity in run, sub-agent and list order, and change nothing |
| Workbench.ChatWorkbench.SaveEntity | chat-workbench.component.ts:388 | the new state is the saved workspace and the invariant holds |
| Workbench.ChatWorkbench.DeleteEntity | chat-workbench.component.ts:389-393 | the nested loops and the summary filter leave the deleted workspace, and the invariant holds |
| Workbench.PurgeSubAgents | chat-workbench.component.ts:390 | the loop over a run's sub-agents filters the id out of each entity list, keeping every other field and the sub-agent order |
| Workbench.PrependResolves | chat-workbench.component.ts:363-375 | an entry anchored to an existing run can be put in front of the summary without breaking the anchoring invariant |
| Workbench.DeleteKeepsValid | chat-workbench.component.ts:389-393 | deleting an entity keeps every run well formed and every remaining summary entry anchored |
| Workbench.SaveKeepsValid | chat-workbench.component.ts:388 | saving an entity keeps every run well formed and every summary entry anchored |
| Workbench.ChatWorkbench.RemoveEntityEverywhere | chat-workbench.component.ts:394 | same as deleting the entity |
| Workbench.ChatWorkbench.RevertActivity | chat-workbench.component.ts:396 | the new state is the reverted workspace and the invariant holds |

## Left out

- The Angular template and the CSS are not modelled, apart from its state changes: the bindings modelled as `EditHistorySearch`, `EditPrompt` and `EditAdditionalInput`, and the preview's Close button modelled as `ClosePreview`. The display-only toggles are listed below.
- `main.ts` and `src/main.ts` only bootstrap the application.
- `scrollToAnchor` is DOM access; `copyPrompt` is a clipboard call; `selectChat`, the `activeChat` getter, `showSummary` and the `expanded` toggles only steer the display.
- The `setTimeout` delays and their scheduling are not modelled. Each callback body may be called at any time and in any order.
- `Date.now()` and `new Date()` readings are the `now` parameters.
- The seeded run `r1` and its summary entry `s1` are not modelled, because that initializer is not valid TypeScript and has only two sub-agents. The model starts with no runs, so its first run is `r1` where the component would make `r2`.
- The `preview` payload and the sample rows are kept as plain values; dataset amounts are in integer cents.
- Object identity is replaced by positions and ids. Two distinct entities with the same id are told apart only by position.
- Optional fields are modelled by their falsy value (`false` or `""`), except `createdEntityId` and `isSaved`, which are `Option` values. `RevertActivity` treats an empty id as missing, as JavaScript's `!` does.
- Text.LowerAscii: lower-cases only A-Z, while JavaScript's `toLowerCase` also folds non-ASCII letters.
- Text.Shorten: counts characters, while JavaScript's `length` and `slice` count UTF-16 code units.
- Decimal.NatToString: does not model JavaScript's exponent form for numbers of 1e21 and above.
- The following divergences from the stated design are modelled as the code behaves and shown by lemmas. `approve` does not check `approvalPending` (RunProperties.ApproveSpec). A late callback completes a sub-agent of a stopped run (RunProperties.LateCompletionAfterStop). `stopSubAgent` and `rejectSubAgent` do not re-evaluate the run (RunProperties.HaltSpec, RunProperties.HaltLeavesRunOpen, RunProperties.RejectAgentSpec, RunProperties.RejectAgentLeavesRunOpen). `approveSubAgent` schedules no callback: it only marks the sub-agent Running, leaving its response and entities as they were (RunProperties.ApproveAgentSpec). `sendAdditionalInput` ignores only empty input (RunProperties.WhitespaceInputIsSent).
