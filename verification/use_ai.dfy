/** The intention-processing orchestrator (src/hooks/useAI.ts). Each action is a pure
    function returning what one invocation does: the processing-state values it sets
    synchronously (its trace), the store updates it issues, the chat requests it
    sends, the staggered task materialisations it schedules as (delay, payload)
    entries, and whether it schedules the delayed reset to idle. */
module UseAI {
  import opened Util
  import opened CanvasTypes
  import opened AITypes
  import opened CanvasStore
  import opened AIService

  // ---------------------------------------------------------------------------
  // Service initialisation

  /** The hook's service: created from the default configuration plus the key, and
      only when the key is present and non-empty. */
  function InitService(apiKey: Option<string>): (r: Option<ServiceConfig>)
    ensures r.Some? <==> apiKey.Some? && apiKey.value != ""
    ensures r.Some? ==> r.value == ServiceConfig(apiKey.value, "gpt-4", 0.7, 2000)
  {
    if apiKey.Some? && apiKey.value != "" then
      Some(NewService(AIConfiguration(apiKey.value, Some("gpt-4"), Some(0.7), Some(2000))))
    else None
  }

  /** `isConnected` once initialisation has settled: the probe's answer when a service
      exists, false otherwise. */
  function SettledConnection(service: Option<ServiceConfig>, probe: ProbeOutcome): (r: Option<bool>)
    ensures service.None? ==> r == Some(false)
    ensures service.Some? ==> r == Some(probe.ProbeResponse? && probe.ok)
  {
    if service.Some? then Some(TestConnection(probe)) else Some(false)
  }

  /** The hook's `isAIAvailable`: a service exists and the connection is what an ok
      probe settles to. */
  function HookAIAvailable(service: Option<ServiceConfig>, isConnected: Option<bool>): (r: bool)
    ensures r <==> service.Some? && isConnected == SettledConnection(service, ProbeResponse(true))
  {
    service.Some? && isConnected == Some(true)
  }

  /** AI is available only with a non-empty key and an ok probe. */
  lemma AvailableNeedsKeyAndProbe(apiKey: Option<string>, probe: ProbeOutcome)
    ensures var service := InitService(apiKey);
      HookAIAvailable(service, SettledConnection(service, probe)) <==>
        apiKey.Some? && apiKey.value != "" && probe == ProbeResponse(true)
  {
  }

  // ---------------------------------------------------------------------------
  // What an action does

  /** What an awaited service method threw. The service methods catch every failure
      themselves, so this only arises from an explicit failure input. */
  datatype Thrown = ErrorInstance(message: string) | NonErrorValue

  /** How an awaited service call ended. */
  datatype HookCall<J> = Returned(outcome: CallOutcome<J>) | Threw(error: Thrown)

  /** A store action issued by the hook. */
  datatype StoreUpdate =
    | UpdateIntentionCall(id: string, patch: IntentionPatch)
    | UpdateTaskCall(taskId: string, taskPatch: TaskPatch)

  /** One `setTimeout(() => addTask(intentionId, payload), delayMs)`. */
  datatype Materialization = Materialization(delayMs: nat, intentionId: string, payload: TaskPayload)

  /** Everything one invocation does, in the order issued within each list. */
  datatype HookRun = HookRun(
    trace: seq<AIProcessingState>,
    updates: seq<StoreUpdate>,
    requests: seq<ChatRequest>,
    schedule: seq<Materialization>,
    settleAfterMs: Option<nat>)

  const NoRun := HookRun([], [], [], [], None)

  /** The processing state once every scheduled timer has fired. */
  function SettledState(before: AIProcessingState, run: HookRun): AIProcessingState {
    if run.settleAfterMs.Some? then IdleProcessing
    else if |run.trace| > 0 then run.trace[|run.trace| - 1]
    else before
  }

  function ApplyUpdate(s: CanvasStoreState, u: StoreUpdate, now: nat): (r: CanvasStoreState)
    ensures |r.intentions| == |s.intentions|
  {
    match u
    case UpdateIntentionCall(id, p) => UpdateIntention(s, id, p, now)
    case UpdateTaskCall(id, p) => UpdateTask(s, id, p, now)
  }

  /** The store after the run's synchronous updates. */
  function ApplyUpdates(s: CanvasStoreState, us: seq<StoreUpdate>, now: nat): (r: CanvasStoreState)
    ensures |r.intentions| == |s.intentions|
    decreases |us|
  {
    if |us| == 0 then s else ApplyUpdates(ApplyUpdate(s, us[0], now), us[1..], now)
  }

  /** When a timer fires: the fresh task id and the clock reading at that moment. */
  datatype Firing = Firing(taskId: string, at: nat)

  /** The store after the scheduled materialisations have fired, in list order (the
      delays are increasing, so list order is firing order). */
  function RunSchedule(s: CanvasStoreState, sched: seq<Materialization>, fs: seq<Firing>): CanvasStoreState
    requires |fs| == |sched|
    decreases |sched|
  {
    if |sched| == 0 then s
    else RunSchedule(AddTask(s, sched[0].intentionId, fs[0].taskId, sched[0].payload, fs[0].at),
                     sched[1..], fs[1..])
  }

  // ---------------------------------------------------------------------------
  // Staggered materialisation

  const TaskRowHeight := 120
  const TaskColumnX := 50.0

  /** The payload for a suggested task: spawning, at the given position, with the
      suggestion's reasoning and no attachments. Progress, current step and outputs are
      left absent, exactly as the hook leaves them out. */
  function SuggestionPayload(intentionId: string, s: SuggestedTask, pos: Position): (r: TaskPayload)
    ensures r.intentionId == intentionId && r.status == Spawning && r.position == pos
    ensures r.title == s.title && r.description == s.description && r.aiReasoning == s.reasoning
    ensures r.relatedAttachments == []
    ensures r.progress.None? && r.currentStep.None? && r.outputs.None?
    ensures r.executionStarted.None? && r.executionCompleted.None?
  {
    TaskPayload(intentionId, s.title, s.description, Spawning, pos, s.reasoning, [],
                None, None, None, None, None)
  }

  /** Suggestion `i` is scheduled once, at `i * spacing` ms, in row `firstRow + i`. */
  function Stagger(intentionId: string, suggestions: seq<SuggestedTask>, spacing: nat, firstRow: nat)
    : (r: seq<Materialization>)
    ensures |r| == |suggestions|
    ensures forall i :: 0 <= i < |r| ==>
      && r[i].delayMs == i * spacing
      && r[i].intentionId == intentionId
      && r[i].payload == SuggestionPayload(intentionId, suggestions[i],
                                           Position(TaskColumnX, ((firstRow + i) * TaskRowHeight) as real))
  {
    seq(|suggestions|, i requires 0 <= i < |suggestions| =>
      Materialization(i * spacing, intentionId,
        SuggestionPayload(intentionId, suggestions[i],
                          Position(TaskColumnX, ((firstRow + i) * TaskRowHeight) as real))))
  }

  /** With a positive spacing the delays strictly increase, so firing order is index
      order. */
  lemma StaggerDelaysIncrease(intentionId: string, suggestions: seq<SuggestedTask>, spacing: nat, firstRow: nat)
    requires spacing > 0
    ensures var r := Stagger(intentionId, suggestions, spacing, firstRow);
      forall i, j :: 0 <= i < j < |r| ==> r[i].delayMs < r[j].delayMs
  {
    var r := Stagger(intentionId, suggestions, spacing, firstRow);
    forall i, j | 0 <= i < j < |r|
      ensures r[i].delayMs < r[j].delayMs
    {
      assert r[j].delayMs - r[i].delayMs == (j - i) * spacing;
    }
  }

  /** Firing a schedule aimed at one intention appends its tasks, in schedule order,
      to the end of that intention's list; other intentions are untouched. */
  lemma {:induction false} RunScheduleAppends(s: CanvasStoreState, sched: seq<Materialization>,
                                              fs: seq<Firing>, intentionId: string)
    requires |fs| == |sched|
    requires forall j :: 0 <= j < |sched| ==> sched[j].intentionId == intentionId
    ensures var r := RunSchedule(s, sched, fs);
      && |r.intentions| == |s.intentions|
      && (forall i :: 0 <= i < |s.intentions| && s.intentions[i].id != intentionId ==>
            r.intentions[i] == s.intentions[i])
      && (forall i :: 0 <= i < |s.intentions| && s.intentions[i].id == intentionId ==>
            && |r.intentions[i].tasks| == |s.intentions[i].tasks| + |sched|
            && r.intentions[i].tasks[..|s.intentions[i].tasks|] == s.intentions[i].tasks
            && forall j :: 0 <= j < |sched| ==>
                 r.intentions[i].tasks[|s.intentions[i].tasks| + j] ==
                   NewTask(fs[j].taskId, fs[j].at, sched[j].payload))
      && r.activeIntention == s.activeIntention && r.canvasState == s.canvasState
    decreases |sched|
  {
    if |sched| > 0 {
      var s1 := AddTask(s, intentionId, fs[0].taskId, sched[0].payload, fs[0].at);
      RunScheduleAppends(s1, sched[1..], fs[1..], intentionId);
      var r := RunSchedule(s, sched, fs);
      assert r == RunSchedule(s1, sched[1..], fs[1..]);
      forall i | 0 <= i < |s.intentions| && s.intentions[i].id == intentionId
        ensures r.intentions[i].tasks[..|s.intentions[i].tasks|] == s.intentions[i].tasks
        ensures forall j :: 0 <= j < |sched| ==>
                 r.intentions[i].tasks[|s.intentions[i].tasks| + j] ==
                   NewTask(fs[j].taskId, fs[j].at, sched[j].payload)
      {
        var before := s.intentions[i].tasks;
        var mid := s1.intentions[i].tasks;
        assert mid == before + [NewTask(fs[0].taskId, fs[0].at, sched[0].payload)];
        assert r.intentions[i].tasks[..|mid|] == mid;
        assert r.intentions[i].tasks[..|before|] == mid[..|before|];
        forall j | 0 <= j < |sched|
          ensures r.intentions[i].tasks[|before| + j] == NewTask(fs[j].taskId, fs[j].at, sched[j].payload)
        {
          if j == 0 {
            assert r.intentions[i].tasks[|before|] == mid[|before|];
          } else {
            assert r.intentions[i].tasks[|mid| + (j - 1)] ==
              NewTask(fs[1..][j - 1].taskId, fs[1..][j - 1].at, sched[1..][j - 1].payload);
          }
        }
      }
    }
  }

  // ---------------------------------------------------------------------------
  // processIntention

  const AnalyzingState := AIProcessingState(true, 0, "Analyzing your intention...", None)

  /** The progress values the success path reports, in order. */
  const SuccessProgress: seq<int> := [0, 25, 60, 80, 100]

  /** The states the success path passes through, in order. */
  const SuccessTrace: seq<AIProcessingState> := [
    AnalyzingState,
    AnalyzingState.(progress := 25, currentStep := "Connecting to AI..."),
    AnalyzingState.(progress := 60, currentStep := "Generating tasks..."),
    AnalyzingState.(progress := 80, currentStep := "Creating task cards..."),
    AnalyzingState.(progress := 100, currentStep := "Complete!")]

  /** The intention's description when processing fails. */
  function ManualFallbackDescription(voiceInput: string): string {
    "I heard: \"" + voiceInput + "\". AI processing failed, but you can still work with this intention manually."
  }

  /** The message surfaced when processing fails. */
  function ErrorMessage(e: Thrown): string {
    match e
    case ErrorInstance(m) => m
    case NonErrorValue => "AI processing failed"
  }

  const AnalysisStagger := 800
  const SettleDelay := 1000

  function MarkProcessing(intentionId: string, voiceInput: string): StoreUpdate {
    UpdateIntentionCall(intentionId,
      NoIntentionChanges.(status := Some(Processing), originalVoiceInput := Some(voiceInput)))
  }

  function Activate(intentionId: string, resp: AIResponse): StoreUpdate {
    UpdateIntentionCall(intentionId,
      NoIntentionChanges.(title := Some(resp.intentionAnalysis), description := Some(resp.intentionAnalysis),
                          status := Some(Active), aiProgress := Some(resp.progressEstimate)))
  }

  function RevertToManual(intentionId: string, voiceInput: string): StoreUpdate {
    UpdateIntentionCall(intentionId,
      NoIntentionChanges.(status := Some(Active), title := Some(voiceInput),
                          description := Some(ManualFallbackDescription(voiceInput))))
  }

  /** The run once the analysis has returned `resp`: progress runs through 0, 25, 60,
      80, 100 without an error and ends on "Complete!", the intention is activated with
      the analysis, one spawning task per suggestion is scheduled 800 ms apart in
      consecutive rows, and the state settles to idle after a second. */
  function SucceededRun(intentionId: string, voiceInput: string, request: ChatRequest, resp: AIResponse)
    : (r: HookRun)
    ensures r.trace == SuccessTrace
    ensures |r.trace| >= 2 && r.trace[0] == AnalyzingState && r.trace[1].progress == 25 && |r.updates| == 2
    ensures |r.trace| == |SuccessProgress| && r.trace[0] == AnalyzingState
    ensures forall i :: 0 <= i < |r.trace| ==>
      r.trace[i].progress == SuccessProgress[i] && r.trace[i].isProcessing && r.trace[i].error.None?
    ensures r.trace[|r.trace| - 1].currentStep == "Complete!"
    ensures r.updates == [MarkProcessing(intentionId, voiceInput), Activate(intentionId, resp)]
    ensures r.requests == [request]
    ensures |r.schedule| == |resp.suggestedTasks|
    ensures forall i :: 0 <= i < |r.schedule| ==>
      && r.schedule[i].delayMs == i * 800
      && r.schedule[i].intentionId == intentionId
      && r.schedule[i].payload == SuggestionPayload(intentionId, resp.suggestedTasks[i],
                                                    Position(50.0, (i * 120) as real))
    ensures r.settleAfterMs == Some(1000)
  {
    HookRun(SuccessTrace, [MarkProcessing(intentionId, voiceInput), Activate(intentionId, resp)],
            [request], Stagger(intentionId, resp.suggestedTasks, AnalysisStagger, 0), Some(SettleDelay))
  }

  /** The run when the await throws: the state ends not processing, at 0, carrying
      the error's message (or the generic one), the intention is reverted to manual
      work, and nothing is scheduled. */
  function FailedRun(intentionId: string, voiceInput: string, request: ChatRequest, e: Thrown)
    : (r: HookRun)
    ensures |r.trace| == 3 && r.trace[0] == AnalyzingState && r.trace[1].progress == 25
    ensures r.trace[2] == AIProcessingState(false, 0, "", Some(ErrorMessage(e)))
    ensures r.updates == [MarkProcessing(intentionId, voiceInput), RevertToManual(intentionId, voiceInput)]
    ensures r.requests == [request]
    ensures r.schedule == [] && r.settleAfterMs.None?
  {
    var s0 := AnalyzingState;
    var s1 := s0.(progress := 25, currentStep := "Connecting to AI...");
    HookRun([s0, s1, AIProcessingState(false, 0, "", Some(ErrorMessage(e)))],
            [MarkProcessing(intentionId, voiceInput), RevertToManual(intentionId, voiceInput)],
            [request], [], None)
  }

  /** `processIntention(intentionId, voiceInput, context)`. Without a service nothing
      happens. Otherwise the analysis request is sent and the run continues as
      `SucceededRun` with the service's answer (which is never a throw of its own) or
      as `FailedRun` when the await throws. */
  function ProcessIntention(service: Option<ServiceConfig>, intentionId: string, voiceInput: string,
                            context: Option<seq<string>>, call: HookCall<AnalysisJson>): (r: HookRun)
    ensures service.None? ==> r == NoRun
    ensures service.Some? ==>
      && |r.trace| >= 2 && r.trace[0] == AnalyzingState && r.trace[1].progress == 25
      && |r.updates| == 2 && r.updates[0] == MarkProcessing(intentionId, voiceInput)
      && r.requests == [AnalysisRequest(service.value, voiceInput, context)]
    ensures service.Some? && call.Returned? ==>
      var resp := AnalyzeIntention(call.outcome, voiceInput);
      && r.trace == SuccessTrace
      && r.settleAfterMs == Some(SettleDelay)
      && r.updates[1] == Activate(intentionId, resp)
      && |r.schedule| == |resp.suggestedTasks|
    ensures service.Some? && call.Threw? ==>
      && r.trace[|r.trace| - 1] == AIProcessingState(false, 0, "", Some(ErrorMessage(call.error)))
      && r.updates[1] == RevertToManual(intentionId, voiceInput)
      && r.schedule == [] && r.settleAfterMs.None?
  {
    match service
    case None => NoRun
    case Some(svc) =>
      var request := AnalysisRequest(svc, voiceInput, context);
      match call
      case Returned(outcome) =>
        SucceededRun(intentionId, voiceInput, request, AnalyzeIntention(outcome, voiceInput))
      case Threw(e) => FailedRun(intentionId, voiceInput, request, e)
  }

  /** The success trace reports the success progress values, in order. */
  lemma SuccessTraceProgress()
    ensures |SuccessTrace| == |SuccessProgress|
    ensures forall i :: 0 <= i < |SuccessTrace| ==> SuccessTrace[i].progress == SuccessProgress[i]
  {
  }

  /** A returned call, whatever its outcome, runs the success path: the progress goes
      through 0, 25, 60, 80 and 100 and then settles to idle, the intention is
      activated with the analysis, and one task is scheduled per suggestion. */
  lemma ProcessIntentionSucceeds(service: ServiceConfig, intentionId: string, voiceInput: string,
                                 context: Option<seq<string>>, outcome: CallOutcome<AnalysisJson>,
                                 before: AIProcessingState)
    ensures var r := ProcessIntention(Some(service), intentionId, voiceInput, context, Returned(outcome));
      var resp := AnalyzeIntention(outcome, voiceInput);
      && |r.trace| == |SuccessProgress|
      && (forall i :: 0 <= i < |r.trace| ==> r.trace[i].progress == SuccessProgress[i])
      && SettledState(before, r) == IdleProcessing
      && |r.updates| == 2 && r.updates[1] == Activate(intentionId, resp)
      && |r.schedule| == |resp.suggestedTasks|
  {
    SuccessTraceProgress();
  }

  /** The analysis a returned call activates the intention with: the answer's own
      when it is valid, with one task per suggestion; otherwise the fallback built
      from the input, with its three tasks. */
  lemma ProcessIntentionUsesAnalysis(service: ServiceConfig, intentionId: string, voiceInput: string,
                                     context: Option<seq<string>>, outcome: CallOutcome<AnalysisJson>)
    ensures var r := ProcessIntention(Some(service), intentionId, voiceInput, context, Returned(outcome));
      && |r.updates| == 2
      && (outcome.ParsedContent? && ValidAnalysis(outcome.json) ==>
            && r.updates[1] == Activate(intentionId, AIResponse(outcome.json.intentionAnalysis.value,
                                                                outcome.json.suggestedTasks.value,
                                                                outcome.json.progressEstimate))
            && |r.schedule| == |outcome.json.suggestedTasks.value|)
      && (!(outcome.ParsedContent? && ValidAnalysis(outcome.json)) ==>
            r.updates[1] == Activate(intentionId, AnalysisFallback(voiceInput)) && |r.schedule| == 3)
  {
  }

  /** A thrown await leaves the error visible once everything has settled. */
  lemma ProcessIntentionFails(service: ServiceConfig, intentionId: string, voiceInput: string,
                              context: Option<seq<string>>, e: Thrown)
    ensures var r := ProcessIntention(Some(service), intentionId, voiceInput, context, Threw(e));
      && SettledState(AnalyzingState, r) == AIProcessingState(false, 0, "", Some(ErrorMessage(e)))
      && r.schedule == []
  {
    var r := ProcessIntention(Some(service), intentionId, voiceInput, context, Threw(e));
    assert r == FailedRun(intentionId, voiceInput, AnalysisRequest(service, voiceInput, context), e);
  }

  /** Progress on the success path never goes down, from one trace entry to any
      later one. */
  lemma {:induction false} SuccessProgressMonotone(intentionId: string, voiceInput: string,
                                                  request: ChatRequest, resp: AIResponse)
    ensures var r := SucceededRun(intentionId, voiceInput, request, resp);
      forall i, j :: 0 <= i <= j < |r.trace| ==> r.trace[i].progress <= r.trace[j].progress
  {
    var r := SucceededRun(intentionId, voiceInput, request, resp);
    forall i, j | 0 <= i <= j < |r.trace|
      ensures r.trace[i].progress <= r.trace[j].progress
    {
      assert SuccessProgress[i] == [0, 25, 60, 80, 100][i];
      assert SuccessProgress[j] == [0, 25, 60, 80, 100][j];
    }
  }

  /** The success path's updates: the intention first becomes processing with the
      input stored, then active with the analysis as title and description and the
      estimate as progress; its tasks are untouched until the scheduled
      materialisations fire. */
  lemma {:induction false} SuccessUpdatesEffect(s: CanvasStoreState, k: nat, voiceInput: string,
                                               resp: AIResponse, now: nat)
    requires k < |s.intentions|
    ensures var id := s.intentions[k].id;
      var mid := ApplyUpdate(s, MarkProcessing(id, voiceInput), now);
      var fin := ApplyUpdates(s, [MarkProcessing(id, voiceInput), Activate(id, resp)], now);
      && |mid.intentions| == |fin.intentions| == |s.intentions|
      && mid.intentions[k].status == Processing && mid.intentions[k].originalVoiceInput == voiceInput
      && fin.intentions[k].status == Active
      && fin.intentions[k].title == resp.intentionAnalysis
      && fin.intentions[k].description == resp.intentionAnalysis
      && fin.intentions[k].aiProgress == resp.progressEstimate
      && fin.intentions[k].originalVoiceInput == voiceInput
      && fin.intentions[k].tasks == s.intentions[k].tasks
  {
    var id := s.intentions[k].id;
    var mid := ApplyUpdate(s, MarkProcessing(id, voiceInput), now);
    assert mid.intentions[k] == PatchIntention(s.intentions[k], MarkProcessing(id, voiceInput).patch).(updatedAt := now);
    var fin := ApplyUpdate(mid, Activate(id, resp), now);
    assert fin.intentions[k] == PatchIntention(mid.intentions[k], Activate(id, resp).patch).(updatedAt := now);
    assert ApplyUpdates(s, [MarkProcessing(id, voiceInput), Activate(id, resp)], now) == fin by {
      var us := [MarkProcessing(id, voiceInput), Activate(id, resp)];
      assert us[1..] == [Activate(id, resp)];
      assert ApplyUpdates(mid, [Activate(id, resp)], now) == ApplyUpdates(fin, [], now);
    }
  }

  /** The failure path's updates: the intention is active again, titled with the raw
      input and described as available for manual work. */
  lemma {:induction false} FailureUpdatesEffect(s: CanvasStoreState, k: nat, voiceInput: string, now: nat)
    requires k < |s.intentions|
    ensures var id := s.intentions[k].id;
      var fin := ApplyUpdates(s, [MarkProcessing(id, voiceInput), RevertToManual(id, voiceInput)], now);
      && |fin.intentions| == |s.intentions|
      && fin.intentions[k].status == Active
      && fin.intentions[k].title == voiceInput
      && fin.intentions[k].description == ManualFallbackDescription(voiceInput)
      && fin.intentions[k].originalVoiceInput == voiceInput
      && fin.intentions[k].tasks == s.intentions[k].tasks
  {
    var id := s.intentions[k].id;
    var mid := ApplyUpdate(s, MarkProcessing(id, voiceInput), now);
    assert mid.intentions[k] == PatchIntention(s.intentions[k], MarkProcessing(id, voiceInput).patch).(updatedAt := now);
    var fin := ApplyUpdate(mid, RevertToManual(id, voiceInput), now);
    assert fin.intentions[k] == PatchIntention(mid.intentions[k], RevertToManual(id, voiceInput).patch).(updatedAt := now);
    assert ApplyUpdates(s, [MarkProcessing(id, voiceInput), RevertToManual(id, voiceInput)], now) == fin by {
      var us := [MarkProcessing(id, voiceInput), RevertToManual(id, voiceInput)];
      assert us[1..] == [RevertToManual(id, voiceInput)];
      assert ApplyUpdates(mid, [RevertToManual(id, voiceInput)], now) == ApplyUpdates(fin, [], now);
    }
  }

  // ---------------------------------------------------------------------------
  // generateMoreTasks

  const MoreTasksStagger := 500

  /** `generateMoreTasks(intentionId)`: new suggestions are staggered by 500 ms and
      placed in the rows after the intention's existing tasks. Nothing happens
      without a service, for an unknown intention, or when the await throws. */
  function GenerateMoreTasks(service: Option<ServiceConfig>, s: CanvasStoreState, intentionId: string,
                             call: HookCall<SuggestionsJson>): (r: HookRun)
    ensures service.None? || GetIntentionById(s, intentionId).None? ==> r == NoRun
    ensures r.trace == [] && r.updates == [] && r.settleAfterMs.None?
    ensures service.Some? && GetIntentionById(s, intentionId).Some? ==>
      var x := GetIntentionById(s, intentionId).value;
      && r.requests == [SuggestionsRequest(service.value, x.title, x.tasks)]
      && (call.Threw? ==> r.schedule == [])
      && (call.Returned? ==>
           var suggestions := GenerateTaskSuggestions(call.outcome);
           && |r.schedule| == |suggestions|
           && forall k :: 0 <= k < |r.schedule| ==>
                && r.schedule[k].delayMs == k * 500
                && r.schedule[k].intentionId == intentionId
                && r.schedule[k].payload.position == Position(50.0, ((|x.tasks| + k) * 120) as real)
                && r.schedule[k].payload.title == suggestions[k].title)
  {
    match service
    case None => NoRun
    case Some(svc) =>
      match GetIntentionById(s, intentionId)
      case None => NoRun
      case Some(x) =>
        var requests := [SuggestionsRequest(svc, x.title, x.tasks)];
        match call
        case Threw(_) => NoRun.(requests := requests)
        case Returned(outcome) =>
          NoRun.(requests := requests,
                 schedule := Stagger(intentionId, GenerateTaskSuggestions(outcome), MoreTasksStagger, |x.tasks|))
  }

  /** The example of two existing tasks and three new suggestions: delays 0, 500 and
      1000 ms, in the third, fourth and fifth rows. */
  lemma MoreTasksExample(service: ServiceConfig, s: CanvasStoreState, k: nat, a: SuggestedTask,
                         b: SuggestedTask, c: SuggestedTask)
    requires k < |s.intentions| && |s.intentions[k].tasks| == 2
    requires forall j :: 0 <= j < k ==> s.intentions[j].id != s.intentions[k].id
    ensures var r := GenerateMoreTasks(Some(service), s, s.intentions[k].id,
                                       Returned(ParsedContent(SuggestionsJson(Some([a, b, c])))));
      && |r.schedule| == 3
      && r.schedule[0].delayMs == 0 && r.schedule[1].delayMs == 500 && r.schedule[2].delayMs == 1000
      && r.schedule[0].payload.position.y == 240.0
      && r.schedule[1].payload.position.y == 360.0
      && r.schedule[2].payload.position.y == 480.0
  {
    var x := GetIntentionById(s, s.intentions[k].id);
    assert x.Some?;
    assert x.value == s.intentions[k];
  }

  // ---------------------------------------------------------------------------
  // updateTaskWithAI

  function HasTask(taskId: string): Intention -> bool {
    (x: Intention) => exists k :: 0 <= k < |x.tasks| && x.tasks[k].id == taskId
  }

  /** The hook's lookup: the first intention owning a task with the id, then the first
      such task in it. It finds the same task as the store's `getTaskById`. */
  function FindTaskForUpdate(xs: seq<Intention>, taskId: string): (r: Option<Task>)
    ensures r.None? <==> !HasTaskAnywhere(xs, taskId)
    ensures r.Some? ==> exists i, k :: (IsFirstTaskMatch(xs, taskId, i, k) && r.value == xs[i].tasks[k])
  {
    match FindFirst(xs, HasTask(taskId))
    case None => None
    case Some(i) =>
      match FindFirst(xs[i].tasks, TaskIdIs(taskId))
      case None => None
      case Some(k) =>
        assert IsFirstTaskMatch(xs, taskId, i, k);
        Some(xs[i].tasks[k])
  }

  /** The store update carrying a model answer: description and status only. */
  function ApplyAnswer(taskId: string, u: AITaskUpdate): StoreUpdate {
    UpdateTaskCall(taskId, NoTaskChanges.(description := Some(u.updatedDescription), status := Some(u.status)))
  }

  /** `updateTaskWithAI(taskId, newContext)`: with a service and a known task, the
      update request is sent for the task the lookup finds, and a returned answer
      becomes exactly one `updateTask`. */
  function UpdateTaskWithAI(service: Option<ServiceConfig>, s: CanvasStoreState, taskId: string,
                            newContext: string, call: HookCall<TaskUpdateJson>): (r: HookRun)
    ensures service.None? || !HasTaskAnywhere(s.intentions, taskId) ==> r == NoRun
    ensures r.trace == [] && r.schedule == [] && r.settleAfterMs.None?
    ensures service.Some? && HasTaskAnywhere(s.intentions, taskId) ==>
      var task := FindTaskForUpdate(s.intentions, taskId).value;
      && r.requests == [TaskUpdateRequest(service.value, task, newContext)]
      && (call.Threw? ==> r.updates == [])
      && (call.Returned? ==> r.updates == [ApplyAnswer(taskId, ProcessTaskUpdate(call.outcome, task, newContext))])
  {
    match service
    case None => NoRun
    case Some(svc) =>
      match FindTaskForUpdate(s.intentions, taskId)
      case None => NoRun
      case Some(task) =>
        var requests := [TaskUpdateRequest(svc, task, newContext)];
        match call
        case Threw(_) => NoRun.(requests := requests)
        case Returned(outcome) =>
          NoRun.(requests := requests, updates := [ApplyAnswer(taskId, ProcessTaskUpdate(outcome, task, newContext))])
  }

  /** Applying an answer changes exactly description and status of the tasks with the
      id; every other task is unchanged. */
  lemma ApplyAnswerEffect(s: CanvasStoreState, taskId: string, u: AITaskUpdate, now: nat)
    ensures var fin := ApplyUpdates(s, [ApplyAnswer(taskId, u)], now);
      && |fin.intentions| == |s.intentions|
      && forall i :: 0 <= i < |s.intentions| ==>
           && |fin.intentions[i].tasks| == |s.intentions[i].tasks|
           && forall k :: 0 <= k < |s.intentions[i].tasks| ==>
                fin.intentions[i].tasks[k] ==
                  if s.intentions[i].tasks[k].id == taskId
                  then s.intentions[i].tasks[k].(description := u.updatedDescription, status := u.status)
                  else s.intentions[i].tasks[k]
  {
    var mid := ApplyUpdate(s, ApplyAnswer(taskId, u), now);
    assert ApplyUpdates(s, [ApplyAnswer(taskId, u)], now) == ApplyUpdates(mid, [], now);
  }

  // ---------------------------------------------------------------------------
  // clearError and retryProcessing

  /** `clearError()`: only the error goes. */
  function ClearError(st: AIProcessingState): (r: AIProcessingState)
    ensures r.error.None?
    ensures r.isProcessing == st.isProcessing && r.progress == st.progress && r.currentStep == st.currentStep
  {
    st.(error := None)
  }

  /** `retryProcessing(...)`: clear the error, then process again with the same
      arguments. */
  function RetryProcessing(st: AIProcessingState, service: Option<ServiceConfig>, intentionId: string,
                           voiceInput: string, context: Option<seq<string>>, call: HookCall<AnalysisJson>)
    : (r: HookRun)
    ensures |r.trace| >= 1 && r.trace[0] == ClearError(st)
    ensures r.trace[1..] == ProcessIntention(service, intentionId, voiceInput, context, call).trace
    ensures r.(trace := []) == ProcessIntention(service, intentionId, voiceInput, context, call).(trace := [])
  {
    var run := ProcessIntention(service, intentionId, voiceInput, context, call);
    run.(trace := [ClearError(st)] + run.trace)
  }

  /** Without a service a retry only clears the error. */
  lemma RetryWithoutService(st: AIProcessingState, intentionId: string, voiceInput: string,
                            context: Option<seq<string>>, call: HookCall<AnalysisJson>)
    ensures var r := RetryProcessing(st, None, intentionId, voiceInput, context, call);
      SettledState(st, r) == ClearError(st) && r.updates == [] && r.schedule == []
  {
  }
}
