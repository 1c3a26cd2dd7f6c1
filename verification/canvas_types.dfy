/** The canvas entities: intentions, the tasks they own, task outputs, attachments and
    the view state (src/types/canvas.ts). Timestamps are milliseconds supplied by the
    caller; a field that the source may leave `undefined` at run time is an `Option`. */
module CanvasTypes {
  import opened Util

  datatype Position = Position(x: real, y: real)

  /** Componentwise sum: a position moved by a drag offset. */
  function Offset(p: Position, delta: Position): (r: Position)
    ensures r.x - p.x == delta.x && r.y - p.y == delta.y
  {
    Position(p.x + delta.x, p.y + delta.y)
  }

  datatype IntentionStatus = Listening | Processing | Active | Fulfilled

  /** The three statuses the type declares, plus any other string that reaches the
      store unvalidated (a task update is parsed from the model's JSON as is). */
  datatype TaskStatus = Spawning | Executing | Completed | UnrecognizedTask(name: string)

  function TaskStatusName(s: TaskStatus): string {
    match s
    case Spawning => "spawning"
    case Executing => "executing"
    case Completed => "completed"
    case UnrecognizedTask(n) => n
  }

  /** Reads a status string the way the store sees it: the three known names, or an
      unrecognised value kept verbatim. */
  function ParseTaskStatus(name: string): (r: TaskStatus)
    ensures TaskStatusName(r) == name
    ensures r.UnrecognizedTask? <==> name !in {"spawning", "executing", "completed"}
  {
    if name == "spawning" then Spawning
    else if name == "executing" then Executing
    else if name == "completed" then Completed
    else UnrecognizedTask(name)
  }

  /** Every status the parser can produce reads back to itself. */
  lemma ParseTaskStatusRoundTrip(s: TaskStatus)
    requires s.UnrecognizedTask? ==> s.name !in {"spawning", "executing", "completed"}
    ensures ParseTaskStatus(TaskStatusName(s)) == s
  {
  }

  datatype OutputType = ProgressOutput | ResultOutput | ErrorOutput

  datatype TaskOutput = TaskOutput(id: string, timestamp: nat, kind: OutputType, content: string)

  datatype AttachmentType = Document | Image | Spreadsheet | Text

  /** An attachment; its free-form `metadata` record is not modelled. */
  datatype Attachment = Attachment(id: string, filename: string, kind: AttachmentType,
                                   content: string, uploadedAt: nat)

  /** A task. `progress`, `currentStep` and `outputs` are declared as required, but
      tasks materialised by the orchestrator are created without them, so the model
      keeps them optional. */
  datatype Task = Task(
    id: string,
    intentionId: string,
    title: string,
    description: string,
    status: TaskStatus,
    position: Position,
    createdAt: nat,
    aiReasoning: string,
    relatedAttachments: seq<string>,
    progress: Option<int>,
    currentStep: Option<string>,
    outputs: Option<seq<TaskOutput>>,
    executionStarted: Option<nat>,
    executionCompleted: Option<nat>)

  /** An intention. `collatedOutput` is declared required but `createIntention` never
      sets it, so it is optional here. */
  datatype Intention = Intention(
    id: string,
    title: string,
    originalVoiceInput: string,
    description: string,
    status: IntentionStatus,
    position: Position,
    createdAt: nat,
    updatedAt: nat,
    tasks: seq<Task>,
    attachments: seq<Attachment>,
    userContext: seq<string>,
    aiProgress: int,
    collatedOutput: Option<string>)

  datatype CanvasState = CanvasState(zoom: real, panX: real, panY: real)

  /** `Partial<Intention>`: every field the update mentions replaces the old value. */
  datatype IntentionPatch = IntentionPatch(
    id: Option<string>,
    title: Option<string>,
    originalVoiceInput: Option<string>,
    description: Option<string>,
    status: Option<IntentionStatus>,
    position: Option<Position>,
    createdAt: Option<nat>,
    updatedAt: Option<nat>,
    tasks: Option<seq<Task>>,
    attachments: Option<seq<Attachment>>,
    userContext: Option<seq<string>>,
    aiProgress: Option<int>,
    collatedOutput: Option<string>)

  const NoIntentionChanges: IntentionPatch :=
    IntentionPatch(None, None, None, None, None, None, None, None, None, None, None, None, None)

  /** `{ ...intention, ...updates }` */
  function PatchIntention(x: Intention, u: IntentionPatch): Intention {
    Intention(
      if u.id.Some? then u.id.value else x.id,
      if u.title.Some? then u.title.value else x.title,
      if u.originalVoiceInput.Some? then u.originalVoiceInput.value else x.originalVoiceInput,
      if u.description.Some? then u.description.value else x.description,
      if u.status.Some? then u.status.value else x.status,
      if u.position.Some? then u.position.value else x.position,
      if u.createdAt.Some? then u.createdAt.value else x.createdAt,
      if u.updatedAt.Some? then u.updatedAt.value else x.updatedAt,
      if u.tasks.Some? then u.tasks.value else x.tasks,
      if u.attachments.Some? then u.attachments.value else x.attachments,
      if u.userContext.Some? then u.userContext.value else x.userContext,
      if u.aiProgress.Some? then u.aiProgress.value else x.aiProgress,
      if u.collatedOutput.Some? then u.collatedOutput else x.collatedOutput)
  }

  /** `Partial<Task>` */
  datatype TaskPatch = TaskPatch(
    id: Option<string>,
    intentionId: Option<string>,
    title: Option<string>,
    description: Option<string>,
    status: Option<TaskStatus>,
    position: Option<Position>,
    createdAt: Option<nat>,
    aiReasoning: Option<string>,
    relatedAttachments: Option<seq<string>>,
    progress: Option<int>,
    currentStep: Option<string>,
    outputs: Option<seq<TaskOutput>>,
    executionStarted: Option<nat>,
    executionCompleted: Option<nat>)

  const NoTaskChanges: TaskPatch :=
    TaskPatch(None, None, None, None, None, None, None, None, None, None, None, None, None, None)

  /** `{ ...task, ...updates }` */
  function PatchTask(t: Task, u: TaskPatch): Task {
    Task(
      if u.id.Some? then u.id.value else t.id,
      if u.intentionId.Some? then u.intentionId.value else t.intentionId,
      if u.title.Some? then u.title.value else t.title,
      if u.description.Some? then u.description.value else t.description,
      if u.status.Some? then u.status.value else t.status,
      if u.position.Some? then u.position.value else t.position,
      if u.createdAt.Some? then u.createdAt.value else t.createdAt,
      if u.aiReasoning.Some? then u.aiReasoning.value else t.aiReasoning,
      if u.relatedAttachments.Some? then u.relatedAttachments.value else t.relatedAttachments,
      if u.progress.Some? then u.progress else t.progress,
      if u.currentStep.Some? then u.currentStep else t.currentStep,
      if u.outputs.Some? then u.outputs else t.outputs,
      if u.executionStarted.Some? then u.executionStarted else t.executionStarted,
      if u.executionCompleted.Some? then u.executionCompleted else t.executionCompleted)
  }

  /** `Omit<Task, 'id' | 'createdAt'>`, the data handed to `addTask`. The optional
      fields are explicit: a payload may leave progress, step and outputs absent. */
  datatype TaskPayload = TaskPayload(
    intentionId: string,
    title: string,
    description: string,
    status: TaskStatus,
    position: Position,
    aiReasoning: string,
    relatedAttachments: seq<string>,
    progress: Option<int>,
    currentStep: Option<string>,
    outputs: Option<seq<TaskOutput>>,
    executionStarted: Option<nat>,
    executionCompleted: Option<nat>)

  /** `{ id, createdAt, ...taskData }` */
  function NewTask(id: string, now: nat, p: TaskPayload): Task {
    Task(id, p.intentionId, p.title, p.description, p.status, p.position, now,
         p.aiReasoning, p.relatedAttachments, p.progress, p.currentStep, p.outputs,
         p.executionStarted, p.executionCompleted)
  }
}
