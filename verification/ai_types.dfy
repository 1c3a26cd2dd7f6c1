/** The model-client contracts and the orchestrator's processing state
    (src/types/ai.ts), plus the resource-usage snapshot the usage monitor reads. */
module AITypes {
  import opened Util
  import opened CanvasTypes

  /** One entry of `suggestedTasks` / `newTasks`. */
  datatype SuggestedTask = SuggestedTask(title: string, description: string, reasoning: string)

  /** `AIResponse`: the result of intention analysis. */
  datatype AIResponse = AIResponse(
    intentionAnalysis: string,
    suggestedTasks: seq<SuggestedTask>,
    progressEstimate: int)

  /** `AITaskUpdate`. */
  datatype AITaskUpdate = AITaskUpdate(updatedDescription: string, status: TaskStatus)

  /** `AIConfiguration` as callers hand it to the service constructor: `model`,
      `temperature` and `maxTokens` may be missing (None) at run time. */
  datatype AIConfiguration = AIConfiguration(
    apiKey: string,
    model: Option<string>,
    temperature: Option<real>,
    maxTokens: Option<int>)

  /** `AIProcessingState`. */
  datatype AIProcessingState = AIProcessingState(
    isProcessing: bool,
    progress: int,
    currentStep: string,
    error: Option<string>)

  /** The idle processing state the hook starts in and returns to. */
  const IdleProcessing := AIProcessingState(false, 0, "", None)

  /** Resource-usage snapshot, with exactly the fields the usage monitor reads. */
  datatype AIResourceUsage = AIResourceUsage(
    currentRequests: nat,
    totalRequests: nat,
    requestsPerMinute: nat,
    tokensUsed: nat,
    estimatedCost: real,
    rateLimitReached: bool,
    resetTime: Option<int>)
}
