/** The model client (src/services/aiService.ts). The HTTP exchange is abstracted to
    its outcome: the request is rejected, the status is not ok, the reply carries no
    content, the content is not JSON, or the content parsed to a JSON record. Every
    public entry point turns each failure into a deterministic value built from its
    own inputs only. The long system-prompt texts are opaque tags. */
module AIService {
  import opened Util
  import opened CanvasTypes
  import opened AITypes

  // ---------------------------------------------------------------------------
  // Configuration

  /** The configuration the service keeps after its constructor has filled the gaps. */
  datatype ServiceConfig = ServiceConfig(apiKey: string, model: string, temperature: real, maxTokens: int)

  const DefaultModel := "gpt-4"
  const DefaultTemperature := 0.7
  const DefaultMaxTokens := 2000

  /** The constructor: `model` falls back when missing or empty, `temperature` only when
      missing (an explicit 0 is kept), `maxTokens` when not supplied. */
  function NewService(c: AIConfiguration): (r: ServiceConfig)
    ensures r.apiKey == c.apiKey
    ensures c.model.Some? && c.model.value != "" ==> r.model == c.model.value
    ensures c.model.None? || c.model == Some("") ==> r.model == "gpt-4"
    ensures c.temperature.Some? ==> r.temperature == c.temperature.value
    ensures c.temperature.None? ==> r.temperature == 0.7
    ensures c.maxTokens.Some? ==> r.maxTokens == c.maxTokens.value
    ensures c.maxTokens.None? ==> r.maxTokens == 2000
  {
    ServiceConfig(
      c.apiKey,
      if c.model.Some? && c.model.value != "" then c.model.value else DefaultModel,
      c.temperature.GetOr(DefaultTemperature),
      c.maxTokens.GetOr(DefaultMaxTokens))
  }

  // ---------------------------------------------------------------------------
  // Requests

  /** The three system prompts, kept opaque. */
  datatype Instructions = AnalysisInstructions | TaskUpdateInstructions | SuggestionInstructions

  /** One chat-completion request: a bearer credential, the model, a system message,
      a user message, the temperature and the token budget. */
  datatype ChatRequest = ChatRequest(
    apiKey: string, model: string, system: Instructions, user: string,
    temperature: real, maxTokens: int)

  const IntentionLabel := "User's intention: \""
  const ContextLabel := "\nAdditional context: "

  /** The user message of intention analysis. A supplied context list, even an empty
      one, adds the context line. */
  function AnalysisUserPrompt(voiceInput: string, context: Option<seq<string>>): (r: string)
    ensures |r| >= |IntentionLabel| + |voiceInput| + 1
    ensures r[..|IntentionLabel|] == IntentionLabel
    ensures r[|IntentionLabel|..|IntentionLabel| + |voiceInput|] == voiceInput
    ensures r[|IntentionLabel| + |voiceInput|] == '"'
    ensures context.None? <==> |r| == |IntentionLabel| + |voiceInput| + 1
    ensures context.Some? ==>
      r[|IntentionLabel| + |voiceInput| + 1..] == ContextLabel + Join(context.value, ", ")
  {
    var head := IntentionLabel + voiceInput + "\"";
    assert head[|IntentionLabel|..|IntentionLabel| + |voiceInput|] == voiceInput;
    match context
    case None => head
    case Some(c) =>
      var r := head + ContextLabel + Join(c, ", ");
      assert r[..|head|] == head;
      r
  }

  /** Reads the spoken input back out of a context-free analysis prompt. */
  function QuotedInput(prompt: string): string
    requires |prompt| >= |IntentionLabel| + 1
  {
    prompt[|IntentionLabel|..|prompt| - 1]
  }

  /** Without context the analysis prompt is an exact quotation of the input. */
  lemma AnalysisPromptQuotesInput(voiceInput: string)
    ensures QuotedInput(AnalysisUserPrompt(voiceInput, None)) == voiceInput
  {
  }

  function AnalysisRequest(c: ServiceConfig, voiceInput: string, context: Option<seq<string>>): (r: ChatRequest)
    ensures r.apiKey == c.apiKey && r.model == c.model && r.temperature == c.temperature
    ensures r.system == AnalysisInstructions && r.maxTokens == c.maxTokens
    ensures r.user == AnalysisUserPrompt(voiceInput, context)
  {
    ChatRequest(c.apiKey, c.model, AnalysisInstructions, AnalysisUserPrompt(voiceInput, context),
                c.temperature, c.maxTokens)
  }

  const TaskLabel := "Current task: \""
  const TitleEnd := "\" - "
  const StatusLabel := "\nCurrent status: "
  const NewContextLabel := "\nNew context: "

  /** A slice inside the left operand of a concatenation. */
  lemma SliceLeft(a: string, b: string, i: nat, j: nat)
    requires i <= j <= |a|
    ensures (a + b)[i..j] == a[i..j]
  {
    assert forall k :: 0 <= k < j - i ==> (a + b)[i..j][k] == a[i..j][k];
  }

  /** A slice inside the right operand of a concatenation. */
  lemma SliceRight(a: string, b: string, i: nat, j: nat)
    requires i <= j <= |b|
    ensures (a + b)[|a| + i..|a| + j] == b[i..j]
  {
    assert forall k :: 0 <= k < j - i ==> (a + b)[|a| + i..|a| + j][k] == b[i..j][k];
  }

  /** The task part of a task-update prompt: the quoted title and the description,
      each after its label. */
  function TaskUpdateHead(task: Task): (r: string)
    ensures var d := |TaskLabel| + |task.title| + |TitleEnd|;
      && |r| == d + |task.description| + |StatusLabel|
      && r[..|TaskLabel|] == TaskLabel
      && r[|TaskLabel|..|TaskLabel| + |task.title|] == task.title
      && r[|TaskLabel| + |task.title|..d] == TitleEnd
      && r[d..d + |task.description|] == task.description
      && r[d + |task.description|..] == StatusLabel
  {
    var p1 := TaskLabel + task.title + TitleEnd;
    var r := p1 + (task.description + StatusLabel);
    SliceLeft(p1, task.description + StatusLabel, 0, |TaskLabel|);
    SliceLeft(p1, task.description + StatusLabel, |TaskLabel|, |TaskLabel| + |task.title|);
    SliceLeft(p1, task.description + StatusLabel, |TaskLabel| + |task.title|, |p1|);
    SliceRight(p1, task.description + StatusLabel, 0, |task.description|);
    SliceRight(p1, task.description + StatusLabel, |task.description|, |task.description| + |StatusLabel|);
    r
  }

  /** The status part of a task-update prompt: the status name, then the new context
      after its label. */
  function TaskUpdateTail(name: string, newContext: string): (r: string)
    ensures |r| == |name| + |NewContextLabel| + |newContext|
    ensures r[..|name|] == name
    ensures r[|name|..|name| + |NewContextLabel|] == NewContextLabel
    ensures r[|name| + |NewContextLabel|..] == newContext
  {
    var r := name + (NewContextLabel + newContext);
    SliceRight(name, NewContextLabel + newContext, 0, |NewContextLabel|);
    SliceRight(name, NewContextLabel + newContext, |NewContextLabel|, |NewContextLabel| + |newContext|);
    r
  }

  /** The user message of a task update: the quoted title, the description, the status
      name and the new context, each at its place after its fixed label. */
  function TaskUpdateUserPrompt(task: Task, newContext: string): (r: string)
    ensures var d := |TaskLabel| + |task.title| + |TitleEnd|;
      var st := d + |task.description| + |StatusLabel|;
      var name := TaskStatusName(task.status);
      && |r| == st + |name| + |NewContextLabel| + |newContext|
      && r[..|TaskLabel|] == TaskLabel
      && r[|TaskLabel|..|TaskLabel| + |task.title|] == task.title
      && r[|TaskLabel| + |task.title|..d] == TitleEnd
      && r[d..d + |task.description|] == task.description
      && r[d + |task.description|..st] == StatusLabel
      && r[st..st + |name|] == name
      && r[st + |name|..st + |name| + |NewContextLabel|] == NewContextLabel
      && r[|r| - |newContext|..] == newContext
  {
    var name := TaskStatusName(task.status);
    var head := TaskUpdateHead(task);
    var tail := TaskUpdateTail(name, newContext);
    var d := |TaskLabel| + |task.title| + |TitleEnd|;
    SliceLeft(head, tail, 0, |TaskLabel|);
    SliceLeft(head, tail, |TaskLabel|, |TaskLabel| + |task.title|);
    SliceLeft(head, tail, |TaskLabel| + |task.title|, d);
    SliceLeft(head, tail, d, d + |task.description|);
    SliceLeft(head, tail, d + |task.description|, |head|);
    SliceRight(head, tail, 0, |name|);
    SliceRight(head, tail, |name|, |name| + |NewContextLabel|);
    SliceRight(head, tail, |name| + |NewContextLabel|, |tail|);
    head + tail
  }

  /** Task updates use a fixed budget of 500 tokens. */
  function TaskUpdateRequest(c: ServiceConfig, task: Task, newContext: string): (r: ChatRequest)
    ensures r.apiKey == c.apiKey && r.model == c.model && r.temperature == c.temperature
    ensures r.system == TaskUpdateInstructions && r.maxTokens == 500
    ensures r.user == TaskUpdateUserPrompt(task, newContext)
  {
    ChatRequest(c.apiKey, c.model, TaskUpdateInstructions, TaskUpdateUserPrompt(task, newContext),
                c.temperature, 500)
  }

  function TaskTitle(t: Task): string {
    t.title
  }

  const SuggestionLabel := "Intention: "
  const ExistingLabel := "\nExisting tasks: "

  /** The user message asking for more tasks: the intention title, then the titles of
      the existing tasks joined by ", ". */
  function SuggestionsUserPrompt(intentionTitle: string, existing: seq<Task>): (r: string)
    ensures var tail := Join(Map(existing, TaskTitle), ", ");
      && |r| == |SuggestionLabel| + |intentionTitle| + |ExistingLabel| + |tail|
      && r[..|SuggestionLabel| + |intentionTitle|] == SuggestionLabel + intentionTitle
      && r[|r| - |tail|..] == tail
    ensures existing == [] ==> r == SuggestionLabel + intentionTitle + ExistingLabel
    ensures |existing| == 1 ==> r == SuggestionLabel + intentionTitle + ExistingLabel + existing[0].title
  {
    var r := SuggestionLabel + intentionTitle + ExistingLabel + Join(Map(existing, TaskTitle), ", ");
    assert r[..|SuggestionLabel| + |intentionTitle|] == SuggestionLabel + intentionTitle;
    r
  }

  /** Suggestion requests use a fixed budget of 800 tokens. */
  function SuggestionsRequest(c: ServiceConfig, intentionTitle: string, existing: seq<Task>): (r: ChatRequest)
    ensures r.apiKey == c.apiKey && r.model == c.model && r.temperature == c.temperature
    ensures r.system == SuggestionInstructions && r.maxTokens == 800
    ensures r.user == SuggestionsUserPrompt(intentionTitle, existing)
  {
    ChatRequest(c.apiKey, c.model, SuggestionInstructions, SuggestionsUserPrompt(intentionTitle, existing),
                c.temperature, 800)
  }

  // ---------------------------------------------------------------------------
  // Outcomes of one remote call

  /** What one chat-completion call produced. `MissingContent` covers an absent or
      empty message content; `ParsedContent` carries the JSON the content parsed to. */
  datatype CallOutcome<J> =
    | FetchRejected(reason: string)
    | HttpNotOk(status: int)
    | MissingContent
    | UnparsableContent
    | ParsedContent(json: J)

  /** The analysis JSON as parsed. `intentionAnalysis` may be missing; `suggestedTasks`
      is None when it is missing or not an array. */
  datatype AnalysisJson = AnalysisJson(
    intentionAnalysis: Option<string>,
    suggestedTasks: Option<seq<SuggestedTask>>,
    progressEstimate: int)

  /** The only check the client performs: a non-empty analysis and an array of tasks. */
  predicate ValidAnalysis(j: AnalysisJson) {
    j.intentionAnalysis.Some? && j.intentionAnalysis.value != "" && j.suggestedTasks.Some?
  }

  /** The JSON a genuine response with this content would parse to. */
  function AnalysisAsJson(a: AIResponse): AnalysisJson {
    AnalysisJson(Some(a.intentionAnalysis), Some(a.suggestedTasks), a.progressEstimate)
  }

  const HeardPrefix := "I heard: \""
  const HeardSuffix := "\". Let me help you break this down into actionable steps."

  /** The analysis fallback: three fixed tasks, an estimate of 10, and the input
      quoted verbatim in the analysis text. */
  function AnalysisFallback(voiceInput: string): (r: AIResponse)
    ensures |r.suggestedTasks| == 3
    ensures r.suggestedTasks[0].title == "Research and Planning"
    ensures r.suggestedTasks[1].title == "First Action Step"
    ensures r.suggestedTasks[2].title == "Review and Adjust"
    ensures forall i :: 0 <= i < 3 ==>
      r.suggestedTasks[i].description != "" && r.suggestedTasks[i].reasoning != ""
    ensures r.progressEstimate == 10
    ensures |r.intentionAnalysis| == |HeardPrefix| + |voiceInput| + |HeardSuffix|
    ensures r.intentionAnalysis[|HeardPrefix|..|HeardPrefix| + |voiceInput|] == voiceInput
  {
    var text := HeardPrefix + voiceInput + HeardSuffix;
    assert text[|HeardPrefix|..|HeardPrefix| + |voiceInput|] == voiceInput;
    AIResponse(
      text,
      [ SuggestedTask("Research and Planning",
                      "Gather information and create a plan for your intention",
                      "Good planning is essential for successful execution"),
        SuggestedTask("First Action Step",
                      "Take the first concrete action towards your goal",
                      "Starting is often the hardest part"),
        SuggestedTask("Review and Adjust",
                      "Evaluate progress and make necessary adjustments",
                      "Regular review ensures you stay on track") ],
      10)
  }

  /** `analyzeIntention(voiceInput, context)` given the call's outcome: a validated
      response is passed through, anything else yields the fallback. */
  function AnalyzeIntention(outcome: CallOutcome<AnalysisJson>, voiceInput: string): (r: AIResponse)
    ensures outcome.ParsedContent? && ValidAnalysis(outcome.json) ==>
      && r.intentionAnalysis == outcome.json.intentionAnalysis.value
      && r.suggestedTasks == outcome.json.suggestedTasks.value
      && r.progressEstimate == outcome.json.progressEstimate
    ensures !(outcome.ParsedContent? && ValidAnalysis(outcome.json)) ==> r == AnalysisFallback(voiceInput)
    ensures r.intentionAnalysis != ""
  {
    match outcome
    case ParsedContent(j) =>
      if ValidAnalysis(j) then AIResponse(j.intentionAnalysis.value, j.suggestedTasks.value, j.progressEstimate)
      else AnalysisFallback(voiceInput)
    case _ => AnalysisFallback(voiceInput)
  }

  /** A response whose JSON is well formed comes back unchanged; in particular the
      fallback has the shape of a genuine response. */
  lemma AnalysisRoundTrip(a: AIResponse, voiceInput: string)
    requires a.intentionAnalysis != ""
    ensures ValidAnalysis(AnalysisAsJson(a))
    ensures AnalyzeIntention(ParsedContent(AnalysisAsJson(a)), voiceInput) == a
  {
  }

  /** Every failure kind, and every rejected shape, gives the same fallback. */
  lemma AnalysisFailuresFallBack(voiceInput: string, j: AnalysisJson, reason: string, status: int)
    requires j.intentionAnalysis.None? || j.intentionAnalysis == Some("") || j.suggestedTasks.None?
    ensures AnalyzeIntention(FetchRejected(reason), voiceInput) == AnalysisFallback(voiceInput)
    ensures AnalyzeIntention(HttpNotOk(status), voiceInput) == AnalysisFallback(voiceInput)
    ensures AnalyzeIntention(MissingContent, voiceInput) == AnalysisFallback(voiceInput)
    ensures AnalyzeIntention(UnparsableContent, voiceInput) == AnalysisFallback(voiceInput)
    ensures AnalyzeIntention(ParsedContent(j), voiceInput) == AnalysisFallback(voiceInput)
  {
  }

  /** The client does not bound the number of suggested tasks: a validated response
      with an empty task list is passed through. */
  lemma EmptyTaskListAccepted(voiceInput: string)
    ensures AnalyzeIntention(ParsedContent(AnalysisJson(Some("x"), Some([]), 50)), voiceInput).suggestedTasks == []
  {
  }

  // ---------------------------------------------------------------------------
  // Task update

  /** The task-update JSON as parsed; its status is any string. */
  datatype TaskUpdateJson = TaskUpdateJson(updatedDescription: string, status: string)

  const UpdatedWith := " (Updated with: "

  /** The task-update fallback: the context appended to the old description, and a
      spawning task moved on to executing. */
  function TaskUpdateFallback(task: Task, newContext: string): (r: AITaskUpdate)
    ensures |r.updatedDescription| == |task.description| + |UpdatedWith| + |newContext| + 1
    ensures r.updatedDescription[..|task.description|] == task.description
    ensures r.updatedDescription[|task.description|..|task.description| + |UpdatedWith|] == UpdatedWith
    ensures r.updatedDescription[|task.description| + |UpdatedWith|..|r.updatedDescription| - 1] == newContext
    ensures r.updatedDescription[|r.updatedDescription| - 1] == ')'
    ensures task.status == Spawning ==> r.status == Executing
    ensures task.status != Spawning ==> r.status == task.status
  {
    var d := task.description + UpdatedWith + newContext + ")";
    assert d[..|task.description|] == task.description;
    assert d[|task.description|..|task.description| + |UpdatedWith|] == UpdatedWith;
    assert d[|task.description| + |UpdatedWith|..|d| - 1] == newContext;
    AITaskUpdate(d, if task.status == Spawning then Executing else task.status)
  }

  /** `processTaskUpdate(task, newContext)` given the call's outcome. The parsed JSON
      is returned without any validation. */
  function ProcessTaskUpdate(outcome: CallOutcome<TaskUpdateJson>, task: Task, newContext: string)
    : (r: AITaskUpdate)
    ensures outcome.ParsedContent? ==>
      r.updatedDescription == outcome.json.updatedDescription &&
      TaskStatusName(r.status) == outcome.json.status
    ensures !outcome.ParsedContent? ==> r == TaskUpdateFallback(task, newContext)
  {
    match outcome
    case ParsedContent(j) => AITaskUpdate(j.updatedDescription, ParseTaskStatus(j.status))
    case _ => TaskUpdateFallback(task, newContext)
  }

  /** The fallback never leaves a task spawning. */
  lemma TaskUpdateFallbackNeverSpawning(task: Task, newContext: string)
    ensures TaskUpdateFallback(task, newContext).status != Spawning
  {
  }

  // ---------------------------------------------------------------------------
  // Task suggestions

  /** The suggestions JSON as parsed; `newTasks` may be missing. */
  datatype SuggestionsJson = SuggestionsJson(newTasks: Option<seq<SuggestedTask>>)

  /** `generateTaskSuggestions(title, existing)` given the call's outcome. */
  function GenerateTaskSuggestions(outcome: CallOutcome<SuggestionsJson>): (r: seq<SuggestedTask>)
    ensures !outcome.ParsedContent? ==> r == []
    ensures outcome.ParsedContent? && outcome.json.newTasks.None? ==> r == []
    ensures outcome.ParsedContent? && outcome.json.newTasks.Some? ==> r == outcome.json.newTasks.value
  {
    match outcome
    case ParsedContent(j) => j.newTasks.GetOr([])
    case _ => []
  }

  // ---------------------------------------------------------------------------
  // Connectivity probe

  /** What the models-listing request produced. */
  datatype ProbeOutcome = ProbeRejected | ProbeResponse(ok: bool)

  /** `testConnection()`: the response's ok flag, false when the request is rejected. */
  function TestConnection(probe: ProbeOutcome): (r: bool)
    ensures r <==> probe.ProbeResponse? && probe.ok
  {
    match probe
    case ProbeRejected => false
    case ProbeResponse(ok) => ok
  }
}
