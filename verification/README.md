# MindCanvas core, modelled in Dafny

MindCanvas is a voice-first canvas. The user speaks an *intention*. A language model
breaks it into *tasks*, which appear one after another as cards under the intention.
The user then starts, completes, drags and summarises those tasks.

This project models the parts of the program that decide things, as immutable
datatypes and pure functions over sequences:

- **The canvas store** (`CanvasStore`). It holds the list of intentions with their
  owned tasks, the active-intention id, the creating flag and the view state. Every
  store action is a function from the old state to the new one. The fresh id and the
  clock reading are parameters.
- **The model client** (`AIService`). It covers:
  - the constructor's defaults;
  - the user-prompt texts;
  - the validation of each answer;
  - the deterministic fallback each entry point returns.

  The HTTP exchange is reduced to its outcome (`CallOutcome`): rejected, not ok, no
  content, unparsable content, or a parsed JSON record.
- **The orchestrator hook** (`UseAI`). Each action returns a `HookRun`, which records:
  - the processing-state values set synchronously (the *trace*);
  - the store updates issued;
  - the requests sent;
  - the timers scheduled, as a list of (delay, payload) entries;
  - whether the delayed reset to idle is scheduled.

  A throw inside the hook happens only through the explicit `HookCall.Threw` input,
  because the service methods catch every failure themselves.
- **The results panel** (`LiveOutputCollation`). It covers which tasks count as
  finished, whether new results exist, the collated summary text, and the edit-buffer
  state behind its buttons.
- **Environment configuration** (`Config`). It covers the defaulting of the
  environment into the configuration record, validation into warnings and errors, and
  the AI-availability check.
- **Decision helpers inside the components**. These are the toolbar's zoom clamps and
  statistics (`CanvasToolbar`), the task card's status presentation, buttons and drag
  (`TaskCard`), and the intention card's transcript handling, auto-listen condition,
  buttons, drag and task layout (`IntentionCard`). The usage monitor's severity
  colour, icon, warnings, bar width and cost label are in `AIResourceMonitor`.

The shared records follow `src/types/canvas.ts` and `src/types/ai.ts` (`CanvasTypes`,
`AITypes`). JavaScript `undefined` is `Option.None`. A task status read from model
output may be any string, so `TaskStatus` has an `UnrecognizedTask(name)` case.
`AIResourceUsage` is not declared in the type files. It is defined here with exactly
the fields the usage monitor reads.

The analysis instructions (src/services/aiService.ts:33) ask the model for three to
five tasks, but the client (src/services/aiService.ts:77) checks only that
`suggestedTasks` is an array. An empty list is passed through, and the model follows
that (`AIService.EmptyTaskListAccepted`).

## Model

| member | source | states |
|---|---|---|
| CanvasStore.CreateIntention | src/stores/canvasStore.ts:42-64 | exactly one intention is appended at the end, and the existing list is its prefix; the new intention is listening, with empty title, description and voice input, no tasks, attachments or context, and progress 0; it becomes the active intention and the creating flag is set; the new id is returned |
| CanvasStore.UpdateIntention | src/stores/canvasStore.ts:67-75 | length and order are kept; an intention with another id is unchanged; a matching one takes the patch's fields and the new timestamp; the active id, creating flag and view stay |
| CanvasStore.UpdateUnknownIntention | src/stores/canvasStore.ts:67-75 | updating an id that no intention carries leaves the store exactly as it was |
| CanvasStore.DeleteIntention | src/stores/canvasStore.ts:77-82 | the result holds exactly the intentions without the id, as a subsequence in original order; the length drops by the number of matches; the active id is cleared iff it was the deleted id |
| CanvasStore.SetActiveIntention | src/stores/canvasStore.ts:84-86 | the active id is set and the creating flag is always cleared; intentions and view stay |
| CanvasStore.AddTask | src/stores/canvasStore.ts:88-106 | the new task is appended at the end of each matching intention's list, which otherwise differs only in its timestamp; other intentions are unchanged |
| CanvasStore.AddTaskToUnknownIntention | src/stores/canvasStore.ts:88-106 | adding to an intention id that does not exist leaves the store exactly as it was |
| CanvasStore.UpdateTaskIn | src/stores/canvasStore.ts:110-116 | within one intention the task count and order are kept, only tasks with the id take the patch, and the intention differs otherwise only in its timestamp |
| CanvasStore.UpdateTask | src/stores/canvasStore.ts:108-118 | every intention is transformed as in `UpdateTaskIn`, so every intention keeps its task count and order and has its timestamp bumped; nothing else in the store changes |
| CanvasStore.DeleteTaskIn | src/stores/canvasStore.ts:122-126 | within one intention the remaining tasks are exactly those without the id, in their original relative order; the count drops by the number of matches |
| CanvasStore.DeleteTask | src/stores/canvasStore.ts:120-128 | the task is removed from every intention as in `DeleteTaskIn`; nothing else in the store changes |
| CanvasStore.UpdateCanvasState | src/stores/canvasStore.ts:130-134 | each view field takes the patch's value when given and keeps its old value otherwise; intentions and flags are unchanged |
| CanvasStore.ResetCanvas | src/stores/canvasStore.ts:136-143 | the result has no intentions, no active id, the creating flag cleared, zoom 1 and pan (0, 0), whatever the store held |
| CanvasStore.GetIntentionById | src/stores/canvasStore.ts:146-148 | None iff no intention carries the id; otherwise the intention at the first position carrying it |
| CanvasStore.GetTasksByIntentionId | src/stores/canvasStore.ts:159-162 | [] when no intention carries the id; otherwise the tasks of the first intention carrying it |
| CanvasStore.GetTaskById | src/stores/canvasStore.ts:150-157 | None iff no task anywhere carries the id; otherwise the first match, scanning intentions in order and each one's tasks in order |
| CanvasStore.FirstTaskMatchUnique | src/stores/canvasStore.ts:150-157 | the first-match position that `GetTaskById` returns from is unique |
| CanvasTypes.ParseTaskStatus | src/services/aiService.ts:156 | a status string read from model output maps back to the same string; it is unrecognised iff it is none of spawning, executing, completed |
| CanvasTypes.ParseTaskStatusRoundTrip | src/types/canvas.ts:27 | parsing the name of a status gives back that status |
| AIService.NewService | src/services/aiService.ts:7-14 | the key is kept; the model falls back to gpt-4 when missing or empty; the temperature falls back to 0.7 only when missing, so 0 is kept; the token budget is 2000 unless supplied |
| AIService.AnalysisUserPrompt | src/services/aiService.ts:54 | the prompt is the intention label, the input verbatim, and a closing quote; the context line with the context joined by ", " follows iff a context list is supplied |
| AIService.AnalysisPromptQuotesInput | src/services/aiService.ts:54 | without context, the input read back from between the quotes of its prompt is the input itself |
| AIService.AnalysisRequest | src/services/aiService.ts:18-59 | the analysis request carries the service's key, model, temperature and token budget, the analysis instructions, and the analysis user prompt |
| AIService.TaskUpdateUserPrompt | src/services/aiService.ts:137 | the task-update prompt holds, in order and each after its fixed label, the task's title, its description, its status name and the new context |
| AIService.TaskUpdateRequest | src/services/aiService.ts:112-143 | the task-update request carries the service's key, model and temperature, the task-update instructions, that prompt, and a budget of 500 tokens |
| AIService.SuggestionsUserPrompt | src/services/aiService.ts:196 | the prompt is the intention title followed by the existing task titles joined by ", ", with their exact lengths; with no existing tasks the list is empty, and with one it is that title |
| AIService.SuggestionsRequest | src/services/aiService.ts:170-202 | the suggestions request carries the service's key, model and temperature, the suggestion instructions, that prompt, and a budget of 800 tokens |
| AIService.AnalysisFallback | src/services/aiService.ts:86-106 | exactly three tasks titled Research and Planning, First Action Step and Review and Adjust, each with a non-empty description and reasoning; estimate 10; the input appears verbatim inside the analysis text |
| AIService.AnalyzeIntention | src/services/aiService.ts:62-106 | a parsed answer with a non-empty analysis and an array of tasks is passed through field for field; any other outcome gives the fallback for the input; the analysis text is never empty |
| AIService.AnalysisRoundTrip | src/services/aiService.ts:77-81 | any response with a non-empty analysis, once serialised to the JSON it stands for, passes validation and comes back unchanged |
| AIService.AnalysisFailuresFallBack | src/services/aiService.ts:62-79 | a rejected request, a non-ok status, missing content, unparsable content, and a parsed answer with a missing or empty analysis or a non-array task list all give the same fallback |
| AIService.EmptyTaskListAccepted | src/services/aiService.ts:77 | the client does not bound the task count: a valid answer with no tasks is returned with no tasks |
| AIService.TaskUpdateFallback | src/services/aiService.ts:160-164 | the description is the old one, then the "(Updated with: " text, then the context, then a closing ")"; a spawning task becomes executing and any other status is kept |
| AIService.ProcessTaskUpdate | src/services/aiService.ts:145-164 | a parsed answer is returned without validation, and its status keeps the answer's string; any failure gives the fallback |
| AIService.TaskUpdateFallbackNeverSpawning | src/services/aiService.ts:163 | the fallback never leaves a task spawning |
| AIService.GenerateTaskSuggestions | src/services/aiService.ts:204-219 | [] on a failed call, on missing content and on a missing task list; otherwise the parsed list |
| AIService.TestConnection | src/services/aiService.ts:224-237 | true iff the probe got a response whose ok flag is set; false when the request is rejected |
| UseAI.InitService | src/hooks/useAI.ts:27-44 | a service exists iff the key is present and non-empty, and it has the key with gpt-4, temperature 0.7 and 2000 tokens |
| UseAI.SettledConnection | src/hooks/useAI.ts:36-42 | once settled, the connection flag is false without a service and the probe's answer with one |
| UseAI.AvailableNeedsKeyAndProbe | src/hooks/useAI.ts:237 | the hook reports AI available iff the key is non-empty and the probe answered ok |
| UseAI.HookAIAvailable | src/hooks/useAI.ts:237 | the hook reports AI available iff a service exists and the connection is what an ok probe settles to |
| UseAI.ApplyUpdate | src/hooks/useAI.ts:24 | a store call issued by the hook, applied to the store, keeps the number of intentions |
| UseAI.ApplyUpdates | src/hooks/useAI.ts:24 | a list of store calls, applied in order, keeps the number of intentions |
| UseAI.SuggestionPayload | src/hooks/useAI.ts:101-109 | a materialised suggestion is spawning, at the given position, with the suggestion's title, description and reasoning and no attachments; progress, current step, outputs and execution times are left absent |
| UseAI.Stagger | src/hooks/useAI.ts:97-111 | suggestion i is scheduled exactly once, at position i of the schedule, with delay i times the spacing, aimed at the intention, in row first-row plus i |
| UseAI.StaggerDelaysIncrease | src/hooks/useAI.ts:110 | with a positive spacing the delays strictly increase, so the firing order is the index order |
| UseAI.RunScheduleAppends | src/hooks/useAI.ts:100-110 | firing a schedule aimed at one intention appends one task per entry, in schedule order, after that intention's existing tasks; the other intentions are untouched |
| UseAI.SucceededRun | src/hooks/useAI.ts:53-127 | progress runs 0, 25, 60, 80, 100 with no error and ends on Complete!; the intention is first marked processing, then activated with the analysis; task i is scheduled at i*800 ms at (50, i*120); the reset to idle is scheduled at 1000 ms |
| UseAI.FailedRun | src/hooks/useAI.ts:129-147 | the state ends not processing, at 0, with the error's message or the generic one; the intention is reverted to manual work; nothing is scheduled |
| UseAI.ProcessIntention | src/hooks/useAI.ts:47-148 | without a service nothing happens; with one, the state starts analysing and reaches 25, the intention is first marked processing, and exactly the analysis request is sent; a returned call then passes through the full success trace, settles after a second and activates the intention with the analysis, scheduling one task per suggestion; a thrown call ends on the error state, reverts the intention to manual work and schedules nothing |
| UseAI.ProcessIntentionSucceeds | src/hooks/useAI.ts:74-127 | any returned outcome runs the success path: progress goes 0, 25, 60, 80, 100 and settles to idle, the intention is activated with the analysis, and one task is scheduled per suggestion |
| UseAI.ProcessIntentionUsesAnalysis | src/hooks/useAI.ts:74-110 | a returned call activates the intention with the answer's own analysis and one task per suggestion when the answer is valid, and otherwise with the fallback built from the input and its three tasks |
| UseAI.ProcessIntentionFails | src/hooks/useAI.ts:129-147 | a thrown await leaves the error visible after everything has settled, and schedules nothing |
| UseAI.SuccessProgressMonotone | src/hooks/useAI.ts:53-117 | along the success path's state trace the progress never decreases |
| UseAI.SuccessUpdatesEffect | src/hooks/useAI.ts:62-88 | after the first update the intention is processing with the input stored; after both it is active, with title and description equal to the analysis, progress equal to the estimate, and its tasks untouched |
| UseAI.FailureUpdatesEffect | src/hooks/useAI.ts:142-146 | after the failure path's updates the intention is active, titled with the raw input, described with the manual-fallback text, and its tasks untouched |
| UseAI.GenerateMoreTasks | src/hooks/useAI.ts:181-220 | nothing happens without a service or for an unknown intention; otherwise the suggestions request is sent, and suggestion k is scheduled at k*500 ms at y = (existing count + k)*120; a thrown await schedules nothing |
| UseAI.MoreTasksExample | src/hooks/useAI.ts:201-216 | with two existing tasks, three suggestions fire at 0, 500 and 1000 ms in rows at y 240, 360 and 480 |
| UseAI.FindTaskForUpdate | src/hooks/useAI.ts:157-161 | the hook's two-step lookup finds a task iff one exists anywhere, and it finds the same first match as `CanvasStore.GetTaskById` |
| UseAI.UpdateTaskWithAI | src/hooks/useAI.ts:151-178 | nothing happens without a service or for an unknown task; otherwise the update request is sent for the found task, and a returned answer becomes exactly one task update with its description and status |
| UseAI.ApplyAnswerEffect | src/hooks/useAI.ts:171-174 | applying the answer changes exactly description and status of the tasks with the id; every other task is unchanged and task counts are kept |
| UseAI.ClearError | src/hooks/useAI.ts:223-225 | the error is cleared and every other field is kept |
| UseAI.RetryProcessing | src/hooks/useAI.ts:228-231 | a retry first clears the error, then does exactly what processing with the same arguments does |
| UseAI.RetryWithoutService | src/hooks/useAI.ts:228-231 | without a service a retry only clears the error |
| LiveOutputCollation.CompletedTasks | src/components/canvas/LiveOutputCollation.tsx:21 | exactly the completed tasks, as many as there are completed tasks, as a subsequence in task order |
| LiveOutputCollation.ResultOutputs | src/components/canvas/LiveOutputCollation.tsx:29 | exactly the result-type outputs of a task, as many as there are, in order; progress and error outputs are dropped |
| LiveOutputCollation.HasResultOutput | src/components/canvas/LiveOutputCollation.tsx:23 | true iff the task has some result-type output, iff its result outputs are non-empty |
| LiveOutputCollation.HasNewResults | src/components/canvas/LiveOutputCollation.tsx:22-24 | true iff some completed task has a result output |
| LiveOutputCollation.AnyCompletedHasResult | src/components/canvas/LiveOutputCollation.tsx:22-24 | searching the completed tasks for one with results succeeds iff some task in the whole list is completed with results |
| LiveOutputCollation.Section | src/components/canvas/LiveOutputCollation.tsx:31 | every section starts with the `**` that opens the bold title |
| LiveOutputCollation.SectionLayout | src/components/canvas/LiveOutputCollation.tsx:31 | a section is `**`, the title, `**` and a line break, then the contents of the result outputs in order joined by blank lines, and nothing else (exact length) |
| LiveOutputCollation.Truthful | src/components/canvas/LiveOutputCollation.tsx:35 | one string is kept per entry that is neither null nor empty, no more and no fewer |
| LiveOutputCollation.TruthfulKeepsExactly | src/components/canvas/LiveOutputCollation.tsx:35 | every kept string is non-empty and comes from the input; nothing is kept iff every entry is null or empty; an input with no null or empty entry is kept whole, in order |
| LiveOutputCollation.GenerateCollatedOutput | src/components/canvas/LiveOutputCollation.tsx:26-39 | the collated text is never empty |
| LiveOutputCollation.CollatedOutputContent | src/components/canvas/LiveOutputCollation.tsx:26-38 | with new results the text is exactly the contributing tasks' sections, in task order, joined by the `\n\n---\n\n` rule; without them it is the placeholder |
| LiveOutputCollation.TruthfulAppend | src/components/canvas/LiveOutputCollation.tsx:35 | the null filter distributes over concatenation |
| LiveOutputCollation.SectionsAreContributing | src/components/canvas/LiveOutputCollation.tsx:27-35 | the filter, map and null-filter pipeline gives exactly one section per completed task with result outputs, in task order |
| LiveOutputCollation.ContributingSectionsEmpty | src/components/canvas/LiveOutputCollation.tsx:30-33 | no section is produced iff no task is completed with result outputs |
| LiveOutputCollation.PlaceholderIffNoNewResults | src/components/canvas/LiveOutputCollation.tsx:22-39 | the text is exactly the placeholder iff there are no new results, because every joined section starts with the bold marker |
| LiveOutputCollation.ContributingSectionsStartBold | src/components/canvas/LiveOutputCollation.tsx:31 | every contributing section starts with `**` |
| LiveOutputCollation.OnlyCompletedContribute | src/components/canvas/LiveOutputCollation.tsx:21-27 | collating only the completed tasks gives the same text and the same new-results flag as collating all of them |
| LiveOutputCollation.SectionsAppend | src/components/canvas/LiveOutputCollation.tsx:27-36 | the sections of two concatenated task lists are the concatenated sections, so section order follows task order |
| LiveOutputCollation.ContributingAppend | src/components/canvas/LiveOutputCollation.tsx:27-36 | the reference sections distribute over concatenation of task lists |
| LiveOutputCollation.AsWrittenThrowsOnMaterialisedTask | src/components/canvas/LiveOutputCollation.tsx:22-29 | a task materialised without outputs and then completed makes both the new-results check and the collation throw as written; the corrected reading reports no results and shows the placeholder |
| LiveOutputCollation.AsWrittenAgreesWhenOutputsPresent | src/components/canvas/LiveOutputCollation.tsx:22-24 | when every completed task carries its outputs, the code as written computes the same new-results answer as the corrected reading |
| LiveOutputCollation.OrEmpty | src/components/canvas/LiveOutputCollation.tsx:14 | the stored output when it is truthy, the empty string otherwise |
| LiveOutputCollation.SyncBuffer | src/components/canvas/LiveOutputCollation.tsx:17-19 | a change of the stored output resets the buffer to it (or to "") and touches nothing else |
| LiveOutputCollation.InitialView | src/components/canvas/LiveOutputCollation.tsx:12-14 | the panel starts collapsed, not editing, with the buffer holding the stored output or "" |
| LiveOutputCollation.HandleAutoGenerate | src/components/canvas/LiveOutputCollation.tsx:41-45 | the generated text goes both into the buffer and to the intention; editing and expansion are unchanged |
| LiveOutputCollation.HandleSave | src/components/canvas/LiveOutputCollation.tsx:47-50 | the buffer goes to the intention unchanged and editing ends |
| LiveOutputCollation.HandleCancel | src/components/canvas/LiveOutputCollation.tsx:52-55 | the buffer is restored from the stored output (or "") and editing ends; nothing is stored |
| LiveOutputCollation.StartEditing | src/components/canvas/LiveOutputCollation.tsx:110-112 | the Edit button enters editing and keeps the buffer |
| LiveOutputCollation.RenderedIffSomeCompleted | src/components/canvas/LiveOutputCollation.tsx:57-59 | the panel renders iff some task is completed |
| LiveOutputCollation.AutoGenerateOnlyWhenRendered | src/components/canvas/LiveOutputCollation.tsx:57-97 | the Auto-Generate button is only ever offered on a rendered panel |
| LiveOutputCollation.AutoGenerateReplacesButtonWithEdit | src/components/canvas/LiveOutputCollation.tsx:97-110 | once the generated text is stored, Auto-Generate disappears and Edit is offered |
| LiveOutputCollation.SaveThenSyncKeepsBuffer | src/components/canvas/LiveOutputCollation.tsx:47-50 | after a save, the re-sync with the stored output leaves the buffer as it was, not editing, with the expansion unchanged |
| LiveOutputCollation.CancelDiscardsTyping | src/components/canvas/LiveOutputCollation.tsx:52-55 | whatever was typed after Edit, Cancel leaves the same state as re-syncing from the stored output |
| Config.StringOr | src/utils/config.ts:5-13 | a set, non-empty string is kept; an unset or empty one falls back |
| Config.NumberOr | src/utils/config.ts:7-8 | a number other than 0 is kept; NaN (unset or non-numeric) and 0 fall back |
| Config.FromEnv | src/utils/config.ts:2-21 | key defaults to "", model to gpt-4, temperature to 0.7, tokens to 2000 and the name to MindCanvas MVP; debug mode iff the variable is exactly "true"; fallback is disabled iff the variable is exactly "false" |
| Config.ValidateConfig | src/utils/config.ts:24-58 | an empty key is the first warning and the missing-key warning appears iff the key is empty; the placeholder key is the only error; an unknown model and a temperature outside [0, 2] each add their warning iff they hold; the warning count is the number of those conditions; valid iff there are no errors |
| Config.ValidIffNotPlaceholder | src/utils/config.ts:31-57 | the configuration is valid iff the key is not the placeholder, so warnings never invalidate |
| Config.AvailableImpliesValid | src/utils/config.ts:57-66 | AI availability implies a valid configuration without the missing-key warning; a valid configuration without availability has an empty key |
| Config.IsAIAvailable | src/utils/config.ts:60-65 | AI is available iff the configuration is valid and the key is non-empty |
| Config.EmptyEnvironment | src/utils/config.ts:2-58 | an empty environment gives the documented defaults, one warning (the missing key), no errors, a valid configuration and no AI |
| Config.ZeroTemperatureFallsBack | src/utils/config.ts:7-43 | an unset, non-numeric or zero temperature becomes 0.7, which draws no temperature warning |
| CanvasToolbar.ZoomIn | src/components/canvas/CanvasToolbar.tsx:13 | the result is the smaller of zoom*1.2 and 3, so never above 3 |
| CanvasToolbar.ZoomOut | src/components/canvas/CanvasToolbar.tsx:17 | the result is the larger of zoom/1.2 and 0.3, so never below 0.3 |
| CanvasToolbar.ZoomStaysInRange | src/components/canvas/CanvasToolbar.tsx:13-17 | a zoom in [0.3, 3] stays in [0.3, 3] after either button |
| CanvasToolbar.ZoomStepsAreInverse | src/components/canvas/CanvasToolbar.tsx:12-18 | away from the clamps, zooming out undoes zooming in and zooming in undoes zooming out |
| CanvasToolbar.HandleZoomIn | src/components/canvas/CanvasToolbar.tsx:12-14 | only the zoom changes, to the zoomed-in value; pan, intentions, active id and creating flag stay |
| CanvasToolbar.HandleZoomOut | src/components/canvas/CanvasToolbar.tsx:16-18 | only the zoom changes, to the zoomed-out value; pan, intentions, active id and creating flag stay |
| CanvasToolbar.HandleResetZoom | src/components/canvas/CanvasToolbar.tsx:20-22 | zoom 1 and pan (0, 0), with intentions, active id and creating flag untouched |
| CanvasToolbar.ResetZoomMatchesResetCanvas | src/components/canvas/CanvasToolbar.tsx:20-22 | the toolbar's reset and the store's full reset leave the same view state |
| CanvasToolbar.StatusCount | src/components/canvas/CanvasToolbar.tsx:24-25 | the count is the number of intentions with the status |
| CanvasToolbar.TotalTasks | src/components/canvas/CanvasToolbar.tsx:26 | the left-to-right accumulation equals the sum of the task-list lengths |
| CanvasToolbar.Stats | src/components/canvas/CanvasToolbar.tsx:24-26 | the intention count, the active and fulfilled counts, and the task total; active plus fulfilled never exceeds the intention count |
| CanvasToolbar.ActivePlusFulfilledBounded | src/components/canvas/CanvasToolbar.tsx:24-25 | no intention is both active and fulfilled, so the two counts together never exceed the number of intentions |
| CanvasToolbar.AddTaskRaisesTotal | src/components/canvas/CanvasToolbar.tsx:26 | adding a task to an intention with a unique id raises the task total by exactly one |
| CanvasToolbar.SumTasksOneMore | src/components/canvas/CanvasToolbar.tsx:26 | two lists whose task counts differ by one at one position have totals differing by one |
| CanvasToolbar.SumTasksSame | src/components/canvas/CanvasToolbar.tsx:26 | two lists with equal task counts position by position have equal totals |
| TaskCard.StatusPresentationDistinct | src/components/canvas/TaskCard.tsx:13-112 | the three known statuses have pairwise distinct icons, colours and labels, each different from the default shown for an unknown status |
| TaskCard.UnrecognizedLooksTheSame | src/components/canvas/TaskCard.tsx:18-27 | every unknown status shows the default icon and colour |
| TaskCard.OfferedAction | src/components/canvas/TaskCard.tsx:143-166 | Start Task is offered iff the task is spawning, and Complete iff it is executing |
| TaskCard.ButtonsOnlyMoveForward | src/components/canvas/TaskCard.tsx:143-166 | an offered button moves a known status exactly one stage forward, and a completed task offers nothing |
| TaskCard.ButtonPathEndsCompleted | src/components/canvas/TaskCard.tsx:143-166 | from spawning, pressing the offered buttons leads through executing to completed, where nothing more is offered |
| TaskCard.HandleExecute | src/components/canvas/TaskCard.tsx:35-37 | exactly the tasks with the card's id become executing; every other task, every task count and every other intention field is unchanged except that each intention's timestamp becomes now; the active id, creating flag and view stay |
| TaskCard.HandleComplete | src/components/canvas/TaskCard.tsx:31-33 | exactly the tasks with the card's id become completed; every other task, every task count and every other intention field is unchanged except that each intention's timestamp becomes now; the active id, creating flag and view stay |
| TaskCard.HandleDragEnd | src/components/canvas/TaskCard.tsx:74-81 | exactly the tasks with the card's id move to the card's position plus the drag offset; every other task, every task count and every other intention field is unchanged except that each intention's timestamp becomes now; the active id, creating flag and view stay |
| TaskCard.DragMovesByOffset | src/components/canvas/TaskCard.tsx:74-81 | a stored task moves by exactly the drag offset and is otherwise unchanged |
| TaskCard.StartThenCompleteOffered | src/components/canvas/TaskCard.tsx:143-159 | after Start Task on a spawning card, the same card offers Complete |
| IntentionCard.HasContent | src/components/canvas/IntentionCard.tsx:28 | a transcript survives trimming iff some character is not white space or a line terminator |
| IntentionCard.OnResult | src/components/canvas/IntentionCard.tsx:27-35 | a final transcript with content becomes the matching intention's voice input and title and sets it processing, and the active intention is cleared; an interim or blank transcript changes nothing |
| IntentionCard.BlankTranscriptIgnored | src/components/canvas/IntentionCard.tsx:28 | every final transcript made only of characters `trim` removes, the empty one included, leaves the store unchanged |
| IntentionCard.AcceptedTranscriptStopsListening | src/components/canvas/IntentionCard.tsx:27-44 | once a transcript is accepted the intention is processing, no intention is active, and the card does not auto-listen |
| IntentionCard.AutoListens | src/components/canvas/IntentionCard.tsx:40-44 | the card starts listening by itself iff it is active and, idle, would offer Start Recording; an auto-listening card never offers Mark Complete |
| IntentionCard.StatusPresentationDistinct | src/components/canvas/IntentionCard.tsx:53-81 | each status has its own icon, and different statuses never share a status text |
| IntentionCard.HandleComplete | src/components/canvas/IntentionCard.tsx:92-94 | exactly the intentions with the card's id become fulfilled; every other intention is unchanged |
| IntentionCard.FulfilledIsFinal | src/components/canvas/IntentionCard.tsx:236-252 | after Mark Complete the intention is fulfilled and offers neither Mark Complete nor Start Recording, and does not auto-listen |
| IntentionCard.HandleDragEnd | src/components/canvas/IntentionCard.tsx:83-90 | exactly the intentions with the card's id move to the card's position plus the drag offset; every other intention is unchanged |
| IntentionCard.TaskCardPosition | src/components/canvas/IntentionCard.tsx:263-266 | task card i sits 50 to the right of the intention and 250 + 120*i below it |
| IntentionCard.TaskCardLayout | src/components/canvas/IntentionCard.tsx:259-267 | one position per task, in task order, each placed by `TaskCardPosition` |
| IntentionCard.TaskCardsStackDownwards | src/components/canvas/IntentionCard.tsx:259-267 | task cards share one column, 120 apart, so later tasks are strictly lower |
| AIResourceMonitor.GetUsageColor | src/components/ui/AIResourceMonitor.tsx:14-19 | red iff rate-limited; yellow iff not rate-limited and over 40 per minute; blue iff neither and some request is active; gray otherwise |
| AIResourceMonitor.GetStatusIcon | src/components/ui/AIResourceMonitor.tsx:21-25 | blocked iff rate-limited; busy iff not rate-limited and some request is active; idle otherwise |
| AIResourceMonitor.ColorAndIconAgree | src/components/ui/AIResourceMonitor.tsx:14-25 | red goes with the blocked icon and only with it; blue goes with busy and gray with idle; an idle icon is shown only on gray or yellow |
| AIResourceMonitor.WarningsExclusive | src/components/ui/AIResourceMonitor.tsx:72-108 | the two warnings never show together; the high-usage one shows iff the panel is yellow; a red per-minute count always comes with one of them |
| AIResourceMonitor.ShowsRateLimitWarning | src/components/ui/AIResourceMonitor.tsx:93-105 | the rate-limit warning shows iff the panel is red, and iff the icon is the blocked one |
| AIResourceMonitor.ShowsHighUsageWarning | src/components/ui/AIResourceMonitor.tsx:107-117 | the high-usage warning shows iff the panel is yellow |
| AIResourceMonitor.PerMinuteInRed | src/components/ui/AIResourceMonitor.tsx:72 | a red per-minute count means the panel is red or yellow |
| AIResourceMonitor.ShowsActivity | src/components/ui/AIResourceMonitor.tsx:119-128 | the activity bar shows iff its width is positive, and without rate limiting iff the icon is the busy one |
| AIResourceMonitor.GetResetLabel | src/components/ui/AIResourceMonitor.tsx:102 | the reset time is unknown iff it is missing or zero; otherwise it is that time |
| AIResourceMonitor.BarWidth | src/components/ui/AIResourceMonitor.tsx:126 | the width is between 0 and 100, is 100 iff at least 5 requests are active, is 20 per request below that, and is positive for any active request |
| AIResourceMonitor.BarWidthMonotone | src/components/ui/AIResourceMonitor.tsx:126 | more active requests never make the bar narrower |
| AIResourceMonitor.FormatCost | src/components/ui/AIResourceMonitor.tsx:10-12 | below 0.01 the fixed text is shown, otherwise the cost itself |

## Left out

- HTTP, headers and JSON parsing. The `fetch` exchange and `JSON.parse` are reduced to `CallOutcome`. The JSON fields are assumed to be present and to have their declared types. A field of the wrong type (a numeric `intentionAnalysis`, say) is not modelled. Neither is a missing field: `AnalysisJson.progressEstimate` and both fields of `TaskUpdateJson` are required in the model, whereas the source accepts answers without them. A missing `progressEstimate` makes src/hooks/useAI.ts:87 store an undefined `aiProgress`. A task-update answer is returned unvalidated (src/services/aiService.ts:156), so a missing `updatedDescription` or `status` makes src/hooks/useAI.ts:171-174 write undefined into the task.
- The three system-prompt texts. They are opaque tags (`Instructions`); only the user prompts are modelled as strings.
- Console logging, including `validateConfig`'s debug output and its call at module load. It does not affect any value.
- React state, effects, refs and timers. A hook action returns its trace, store calls and schedule instead of performing them. Wall-clock interleaving of timers with other user actions is not modelled. `RunSchedule` fires a schedule in list order, which is its delay order.
- `crypto.randomUUID()` and `new Date()`. Ids and clock readings are parameters.
- The attachment records. They are carried as data but no covered operation reads them.
- Number formatting: `toFixed(3)` in the cost label, `toLocaleString`, `toLocaleTimeString`, and the temperature in its warning text. The labels carry the number instead of its text.
- IEEE floating point. Zoom, pan, positions, temperature and cost are Dafny reals, so rounding in `zoom * 1.2` and similar is not modelled.
- The rate-limit and cost governor and the per-task execution engine. Only the usage record they produce is read here; their bookkeeping code is not part of this model.
- Voice recognition (`useVoiceRecognition`, `VoiceInput`), the settings dialog, canvas hit-testing and coordinate conversion, and the purely presentational components. They make no decision that this model depends on. For the intention card, the recogniser's support flag, its listening flag and its transcripts are inputs.
- Animation and rendering. The intention card's colour classes and the panel's expand toggle are left out; they have no other effect.
- IntentionCard.StatusPresentationDistinct: the source's `default` branches of `getStatusIcon` and `getStatusText` cannot be reached because the intention status is a closed union, so they are not modelled.
- LiveOutputCollation.GenerateCollatedOutput: its own contract states only that the text is never empty. Its content is stated by `CollatedOutputContent` (the contributing sections joined by the `\n\n---\n\n` rule, or the placeholder), with each section's text given by `SectionLayout`.

## Findings

| source | as written | input that shows it | evidently intended | confidence | as-written member | corrected member |
|---|---|---|---|---|---|---|
| src/hooks/useAI.ts:101-109 with src/components/canvas/LiveOutputCollation.tsx:22-23, 29 | Tasks materialised by the orchestrator have no `outputs` field, although the task type declares it. The results panel calls `task.outputs.some(...)` and `task.outputs.filter(...)` on every completed task. A TypeError is thrown as soon as such a task is completed. | Process an intention so that a suggested task is added; press Start Task and then Complete on its card; the panel then evaluates `hasNewResults` on that task | A task without outputs counts as one with no outputs: no new results, and the placeholder text | not executed | LiveOutputCollation.AsWrittenThrowsOnMaterialisedTask | LiveOutputCollation.PlaceholderIffNoNewResults |
