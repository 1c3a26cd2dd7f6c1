/** The task card (src/components/canvas/TaskCard.tsx): status icon, colour and label,
    the one status button offered per status, and the store updates its buttons and
    drag gesture issue. */
module TaskCard {
  import opened Util
  import opened CanvasTypes
  import opened CanvasStore

  /** `getStatusIcon()` */
  function StatusIcon(s: TaskStatus): string {
    match s
    case Spawning => "\U{2728}"
    case Executing => "\U{26A1}"
    case Completed => "\U{2705}"
    case UnrecognizedTask(_) => "\U{2753}"
  }

  /** `getStatusColor()` */
  function StatusColor(s: TaskStatus): string {
    match s
    case Spawning => "border-yellow-300 shadow-yellow-300/20"
    case Executing => "border-orange-400 shadow-orange-400/20"
    case Completed => "border-green-400 shadow-green-400/20"
    case UnrecognizedTask(_) => "border-gray-400 shadow-gray-400/20"
  }

  /** The status text next to the icon: empty for an unrecognised status. */
  function StatusLabel(s: TaskStatus): string {
    match s
    case Spawning => "Spawning..."
    case Executing => "In Progress"
    case Completed => "Completed"
    case UnrecognizedTask(_) => ""
  }

  /** The three known statuses have pairwise distinct icons, colours and labels, and
      every unrecognised status shows the default icon, colour and an empty label,
      different from all three. */
  lemma StatusPresentationDistinct(a: TaskStatus, b: TaskStatus)
    requires !a.UnrecognizedTask? || !b.UnrecognizedTask?
    ensures StatusIcon(a) == StatusIcon(b) <==> a == b
    ensures StatusColor(a) == StatusColor(b) <==> a == b
    ensures StatusLabel(a) == StatusLabel(b) <==> a == b
  {
  }

  /** Every unrecognised status is presented identically. */
  lemma UnrecognizedLooksTheSame(a: string, b: string)
    ensures StatusIcon(UnrecognizedTask(a)) == StatusIcon(UnrecognizedTask(b)) == "\U{2753}"
    ensures StatusColor(UnrecognizedTask(a)) == StatusColor(UnrecognizedTask(b))
  {
  }

  /** The status buttons. */
  datatype CardAction = StartTask | CompleteTask

  /** The button shown for a status: Start Task when spawning, Complete when
      executing, none otherwise. */
  function OfferedAction(s: TaskStatus): (r: Option<CardAction>)
    ensures r == Some(StartTask) <==> s == Spawning
    ensures r == Some(CompleteTask) <==> s == Executing
  {
    match s
    case Spawning => Some(StartTask)
    case Executing => Some(CompleteTask)
    case _ => None
  }

  /** The status a button sets. */
  function ActionTarget(a: CardAction): TaskStatus {
    match a
    case StartTask => Executing
    case CompleteTask => Completed
  }

  /** Position of a status on the spawning, executing, completed path. */
  function Stage(s: TaskStatus): nat {
    match s
    case Spawning => 0
    case Executing => 1
    case Completed => 2
    case UnrecognizedTask(_) => 0
  }

  /** A button only ever moves a task one stage forward, from a known status, and a
      completed task offers nothing further. */
  lemma ButtonsOnlyMoveForward(s: TaskStatus)
    ensures OfferedAction(s).Some? ==>
      !s.UnrecognizedTask? && !ActionTarget(OfferedAction(s).value).UnrecognizedTask?
      && Stage(ActionTarget(OfferedAction(s).value)) == Stage(s) + 1
    ensures OfferedAction(Completed).None?
  {
  }

  /** Pressing whatever button is offered, at most twice, from spawning ends at
      completed with nothing more offered. */
  lemma ButtonPathEndsCompleted()
    ensures var s1 := ActionTarget(OfferedAction(Spawning).value);
      var s2 := ActionTarget(OfferedAction(s1).value);
      s1 == Executing && s2 == Completed && OfferedAction(s2).None?
  {
  }

  /** `handleExecute`: `updateTask(task.id, { status: 'executing' })`. */
  function HandleExecute(s: CanvasStoreState, task: Task, now: nat): (r: CanvasStoreState)
    ensures |r.intentions| == |s.intentions|
    ensures forall i :: 0 <= i < |s.intentions| ==>
      && |r.intentions[i].tasks| == |s.intentions[i].tasks|
      && r.intentions[i].(tasks := [], updatedAt := 0) == s.intentions[i].(tasks := [], updatedAt := 0)
      && r.intentions[i].updatedAt == now
    ensures r.activeIntention == s.activeIntention && r.canvasState == s.canvasState
    ensures r.isCreatingIntention == s.isCreatingIntention
    ensures forall i, k :: 0 <= i < |s.intentions| && 0 <= k < |s.intentions[i].tasks| ==>
      r.intentions[i].tasks[k] == (if s.intentions[i].tasks[k].id == task.id
                                   then s.intentions[i].tasks[k].(status := Executing)
                                   else s.intentions[i].tasks[k])
  {
    UpdateTask(s, task.id, NoTaskChanges.(status := Some(Executing)), now)
  }

  /** `handleComplete`: `updateTask(task.id, { status: 'completed' })`. */
  function HandleComplete(s: CanvasStoreState, task: Task, now: nat): (r: CanvasStoreState)
    ensures |r.intentions| == |s.intentions|
    ensures forall i :: 0 <= i < |s.intentions| ==>
      && |r.intentions[i].tasks| == |s.intentions[i].tasks|
      && r.intentions[i].(tasks := [], updatedAt := 0) == s.intentions[i].(tasks := [], updatedAt := 0)
      && r.intentions[i].updatedAt == now
    ensures r.activeIntention == s.activeIntention && r.canvasState == s.canvasState
    ensures r.isCreatingIntention == s.isCreatingIntention
    ensures forall i, k :: 0 <= i < |s.intentions| && 0 <= k < |s.intentions[i].tasks| ==>
      r.intentions[i].tasks[k] == (if s.intentions[i].tasks[k].id == task.id
                                   then s.intentions[i].tasks[k].(status := Completed)
                                   else s.intentions[i].tasks[k])
  {
    UpdateTask(s, task.id, NoTaskChanges.(status := Some(Completed)), now)
  }

  /** The card's drag end: the task moves by the drag offset, measured from the card's
      own task position; nothing else about any task changes. */
  function HandleDragEnd(s: CanvasStoreState, task: Task, offset: Position, now: nat): (r: CanvasStoreState)
    ensures |r.intentions| == |s.intentions|
    ensures forall i :: 0 <= i < |s.intentions| ==>
      && |r.intentions[i].tasks| == |s.intentions[i].tasks|
      && r.intentions[i].(tasks := [], updatedAt := 0) == s.intentions[i].(tasks := [], updatedAt := 0)
      && r.intentions[i].updatedAt == now
    ensures r.activeIntention == s.activeIntention && r.canvasState == s.canvasState
    ensures r.isCreatingIntention == s.isCreatingIntention
    ensures forall i, k :: 0 <= i < |s.intentions| && 0 <= k < |s.intentions[i].tasks| ==>
      r.intentions[i].tasks[k] == (if s.intentions[i].tasks[k].id == task.id
                                   then s.intentions[i].tasks[k].(position := Offset(task.position, offset))
                                   else s.intentions[i].tasks[k])
  {
    UpdateTask(s, task.id, NoTaskChanges.(position := Some(Offset(task.position, offset))), now)
  }

  /** A card whose task is stored moves that task by exactly the drag offset. */
  lemma DragMovesByOffset(s: CanvasStoreState, i: nat, k: nat, offset: Position, now: nat)
    requires i < |s.intentions| && k < |s.intentions[i].tasks|
    ensures var t := s.intentions[i].tasks[k];
      var moved := HandleDragEnd(s, t, offset, now).intentions[i].tasks[k];
      moved.position.x - t.position.x == offset.x && moved.position.y - t.position.y == offset.y
      && moved.(position := t.position) == t
  {
  }

  /** After Start Task on a spawning card the same card offers Complete. */
  lemma StartThenCompleteOffered(s: CanvasStoreState, i: nat, k: nat, now: nat)
    requires i < |s.intentions| && k < |s.intentions[i].tasks|
    requires s.intentions[i].tasks[k].status == Spawning
    ensures var t := s.intentions[i].tasks[k];
      OfferedAction(HandleExecute(s, t, now).intentions[i].tasks[k].status) == Some(CompleteTask)
  {
  }
}
