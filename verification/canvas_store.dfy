/** The canvas store (src/stores/canvasStore.ts): an immutable list of intentions with
    their owned tasks, the active-intention id, the creating flag and the view state.
    Each action is a pure function from the old state to the new one; the fresh id
    and the clock reading the source draws itself are parameters here. */
module CanvasStore {
  import opened Util
  import opened CanvasTypes

  datatype CanvasStoreState = CanvasStoreState(
    intentions: seq<Intention>,
    activeIntention: Option<string>,
    canvasState: CanvasState,
    isCreatingIntention: bool)

  const DefaultCanvasState := CanvasState(1.0, 0.0, 0.0)

  /** The store's initial state. */
  const EmptyStore := CanvasStoreState([], None, DefaultCanvasState, false)

  function IdIs(id: string): Intention -> bool {
    (x: Intention) => x.id == id
  }

  function IdIsNot(id: string): Intention -> bool {
    (x: Intention) => x.id != id
  }

  function TaskIdIs(id: string): Task -> bool {
    (t: Task) => t.id == id
  }

  function TaskIdIsNot(id: string): Task -> bool {
    (t: Task) => t.id != id
  }

  /** Two intentions agree on everything except the `updatedAt` stamp. */
  predicate SameButUpdatedAt(a: Intention, b: Intention) {
    a.(updatedAt := b.updatedAt) == b
  }

  /** Two stores hold the same intentions, in the same order, up to `updatedAt`. */
  predicate SameModuloTimestamps(a: CanvasStoreState, b: CanvasStoreState) {
    && |a.intentions| == |b.intentions|
    && (forall i :: 0 <= i < |a.intentions| ==> SameButUpdatedAt(a.intentions[i], b.intentions[i]))
    && a.activeIntention == b.activeIntention
    && a.canvasState == b.canvasState
    && a.isCreatingIntention == b.isCreatingIntention
  }

  // ---------------------------------------------------------------------------
  // Intentions

  /** `createIntention(position)` with the id and clock reading supplied. Returns the
      new state and the id of the new intention. */
  function CreateIntention(s: CanvasStoreState, id: string, position: Position, now: nat)
    : (r: (CanvasStoreState, string))
    ensures r.1 == id
    ensures |r.0.intentions| == |s.intentions| + 1
    ensures r.0.intentions[..|s.intentions|] == s.intentions
    ensures var x := r.0.intentions[|s.intentions|];
      && x.id == id && x.status == Listening && x.position == position
      && x.title == "" && x.description == "" && x.originalVoiceInput == ""
      && x.tasks == [] && x.attachments == [] && x.userContext == [] && x.aiProgress == 0
      && x.createdAt == now && x.updatedAt == now && x.collatedOutput.None?
    ensures r.0.activeIntention == Some(id) && r.0.isCreatingIntention
    ensures r.0.canvasState == s.canvasState
  {
    var x := Intention(id, "", "", "", Listening, position, now, now, [], [], [], 0, None);
    (s.(intentions := s.intentions + [x], activeIntention := Some(id), isCreatingIntention := true), id)
  }

  /** `updateIntention(id, updates)`: the matching intentions take the update and a new
      `updatedAt`; every other intention, and the order, stay as they were. */
  function UpdateIntention(s: CanvasStoreState, id: string, u: IntentionPatch, now: nat)
    : (r: CanvasStoreState)
    ensures |r.intentions| == |s.intentions|
    ensures forall i :: 0 <= i < |s.intentions| && s.intentions[i].id != id ==>
      r.intentions[i] == s.intentions[i]
    ensures forall i :: 0 <= i < |s.intentions| && s.intentions[i].id == id ==>
      r.intentions[i] == PatchIntention(s.intentions[i], u).(updatedAt := now)
    ensures r.activeIntention == s.activeIntention && r.canvasState == s.canvasState
    ensures r.isCreatingIntention == s.isCreatingIntention
  {
    s.(intentions := Map(s.intentions, (x: Intention) =>
      if x.id == id then PatchIntention(x, u).(updatedAt := now) else x))
  }

  /** Updating an id that no intention carries changes nothing. */
  lemma UpdateUnknownIntention(s: CanvasStoreState, id: string, u: IntentionPatch, now: nat)
    requires forall i :: 0 <= i < |s.intentions| ==> s.intentions[i].id != id
    ensures UpdateIntention(s, id, u, now) == s
  {
    assert UpdateIntention(s, id, u, now).intentions == s.intentions;
  }

  /** `deleteIntention(id)`: exactly the intentions carrying `id` disappear, the rest
      keep their order; the active id is cleared exactly when it was `id`. */
  function DeleteIntention(s: CanvasStoreState, id: string): (r: CanvasStoreState)
    ensures forall i :: 0 <= i < |r.intentions| ==> r.intentions[i].id != id && r.intentions[i] in s.intentions
    ensures forall i :: 0 <= i < |s.intentions| && s.intentions[i].id != id ==> s.intentions[i] in r.intentions
    ensures |r.intentions| + Count(s.intentions, IdIs(id)) == |s.intentions|
    ensures IsSubsequence(r.intentions, s.intentions)
    ensures r.activeIntention == if s.activeIntention == Some(id) then None else s.activeIntention
    ensures r.canvasState == s.canvasState && r.isCreatingIntention == s.isCreatingIntention
  {
    FilterIsSubsequence(s.intentions, IdIsNot(id));
    CountComplement(s.intentions, IdIsNot(id), IdIs(id));
    s.(intentions := Filter(s.intentions, IdIsNot(id)),
       activeIntention := if s.activeIntention == Some(id) then None else s.activeIntention)
  }

  /** `setActiveIntention(id)`: always leaves the creating mode. */
  function SetActiveIntention(s: CanvasStoreState, id: Option<string>): (r: CanvasStoreState)
    ensures r.activeIntention == id && !r.isCreatingIntention
    ensures r.intentions == s.intentions && r.canvasState == s.canvasState
  {
    s.(activeIntention := id, isCreatingIntention := false)
  }

  // ---------------------------------------------------------------------------
  // Tasks

  /** `addTask(intentionId, taskData)`: the new task goes to the end of the matching
      intention's list; every other intention is untouched. */
  function AddTask(s: CanvasStoreState, intentionId: string, taskId: string, p: TaskPayload, now: nat)
    : (r: CanvasStoreState)
    ensures |r.intentions| == |s.intentions|
    ensures forall i :: 0 <= i < |s.intentions| && s.intentions[i].id != intentionId ==>
      r.intentions[i] == s.intentions[i]
    ensures forall i :: 0 <= i < |s.intentions| && s.intentions[i].id == intentionId ==>
      && SameButUpdatedAt(r.intentions[i].(tasks := s.intentions[i].tasks), s.intentions[i])
      && r.intentions[i].tasks == s.intentions[i].tasks + [NewTask(taskId, now, p)]
      && r.intentions[i].updatedAt == now
    ensures r.activeIntention == s.activeIntention && r.canvasState == s.canvasState
    ensures r.isCreatingIntention == s.isCreatingIntention
  {
    var t := NewTask(taskId, now, p);
    s.(intentions := Map(s.intentions, (x: Intention) =>
      if x.id == intentionId then x.(tasks := x.tasks + [t], updatedAt := now) else x))
  }

  /** Adding to an intention that does not exist adds nothing. */
  lemma AddTaskToUnknownIntention(s: CanvasStoreState, intentionId: string, taskId: string, p: TaskPayload, now: nat)
    requires forall i :: 0 <= i < |s.intentions| ==> s.intentions[i].id != intentionId
    ensures AddTask(s, intentionId, taskId, p, now) == s
  {
    assert AddTask(s, intentionId, taskId, p, now).intentions == s.intentions;
  }

  /** One intention after `updateTask`: the matching tasks are patched in place. */
  function UpdateTaskIn(x: Intention, taskId: string, u: TaskPatch, now: nat): (r: Intention)
    ensures SameButUpdatedAt(r.(tasks := x.tasks), x) && r.updatedAt == now
    ensures |r.tasks| == |x.tasks|
    ensures forall k :: 0 <= k < |x.tasks| ==>
      r.tasks[k] == if x.tasks[k].id == taskId then PatchTask(x.tasks[k], u) else x.tasks[k]
  {
    x.(tasks := Map(x.tasks, (t: Task) => if t.id == taskId then PatchTask(t, u) else t),
       updatedAt := now)
  }

  /** `updateTask(taskId, updates)`: every intention keeps its tasks' count and order,
      only tasks with the id change, and every intention's `updatedAt` is bumped. */
  function UpdateTask(s: CanvasStoreState, taskId: string, u: TaskPatch, now: nat): (r: CanvasStoreState)
    ensures |r.intentions| == |s.intentions|
    ensures forall i :: 0 <= i < |s.intentions| ==> r.intentions[i] == UpdateTaskIn(s.intentions[i], taskId, u, now)
    ensures r.activeIntention == s.activeIntention && r.canvasState == s.canvasState
    ensures r.isCreatingIntention == s.isCreatingIntention
  {
    s.(intentions := Map(s.intentions, (x: Intention) => UpdateTaskIn(x, taskId, u, now)))
  }

  /** One intention after `deleteTask`. */
  function DeleteTaskIn(x: Intention, taskId: string, now: nat): (r: Intention)
    ensures SameButUpdatedAt(r.(tasks := x.tasks), x) && r.updatedAt == now
    ensures forall k :: 0 <= k < |r.tasks| ==> r.tasks[k].id != taskId && r.tasks[k] in x.tasks
    ensures forall k :: 0 <= k < |x.tasks| && x.tasks[k].id != taskId ==> x.tasks[k] in r.tasks
    ensures |r.tasks| + Count(x.tasks, TaskIdIs(taskId)) == |x.tasks|
    ensures IsSubsequence(r.tasks, x.tasks)
  {
    FilterIsSubsequence(x.tasks, TaskIdIsNot(taskId));
    CountComplement(x.tasks, TaskIdIsNot(taskId), TaskIdIs(taskId));
    x.(tasks := Filter(x.tasks, TaskIdIsNot(taskId)), updatedAt := now)
  }

  /** `deleteTask(taskId)`: removes the task from every intention, keeping the
      relative order of the remaining tasks. */
  function DeleteTask(s: CanvasStoreState, taskId: string, now: nat): (r: CanvasStoreState)
    ensures |r.intentions| == |s.intentions|
    ensures forall i :: 0 <= i < |s.intentions| ==> r.intentions[i] == DeleteTaskIn(s.intentions[i], taskId, now)
    ensures r.activeIntention == s.activeIntention && r.canvasState == s.canvasState
    ensures r.isCreatingIntention == s.isCreatingIntention
  {
    s.(intentions := Map(s.intentions, (x: Intention) => DeleteTaskIn(x, taskId, now)))
  }

  // ---------------------------------------------------------------------------
  // View state

  /** `Partial<CanvasState>` */
  datatype CanvasPatch = CanvasPatch(zoom: Option<real>, panX: Option<real>, panY: Option<real>)

  /** `updateCanvasState(updates)`: only the view state changes. */
  function UpdateCanvasState(s: CanvasStoreState, u: CanvasPatch): (r: CanvasStoreState)
    ensures r.intentions == s.intentions && r.activeIntention == s.activeIntention
    ensures r.isCreatingIntention == s.isCreatingIntention
    ensures r.canvasState.zoom == u.zoom.GetOr(s.canvasState.zoom)
    ensures r.canvasState.panX == u.panX.GetOr(s.canvasState.panX)
    ensures r.canvasState.panY == u.panY.GetOr(s.canvasState.panY)
  {
    s.(canvasState := CanvasState(u.zoom.GetOr(s.canvasState.zoom),
                                  u.panX.GetOr(s.canvasState.panX),
                                  u.panY.GetOr(s.canvasState.panY)))
  }

  /** `resetCanvas()`: back to the initial state whatever the store held. */
  function ResetCanvas(s: CanvasStoreState): (r: CanvasStoreState)
    ensures r.intentions == [] && r.activeIntention.None? && !r.isCreatingIntention
    ensures r.canvasState.zoom == 1.0 && r.canvasState.panX == 0.0 && r.canvasState.panY == 0.0
  {
    EmptyStore
  }

  // ---------------------------------------------------------------------------
  // Queries

  /** `getIntentionById(id)`: the first intention carrying `id`. */
  function GetIntentionById(s: CanvasStoreState, id: string): (r: Option<Intention>)
    ensures r.None? <==> forall i :: 0 <= i < |s.intentions| ==> s.intentions[i].id != id
    ensures r.Some? ==> r.value.id == id
    ensures r.Some? ==> exists k :: (0 <= k < |s.intentions| && s.intentions[k] == r.value &&
      forall j :: 0 <= j < k ==> s.intentions[j].id != id)
  {
    match FindFirst(s.intentions, IdIs(id))
    case None => None
    case Some(k) => Some(s.intentions[k])
  }

  /** `getTasksByIntentionId(id)`: the first matching intention's tasks, or none. */
  function GetTasksByIntentionId(s: CanvasStoreState, id: string): (r: seq<Task>)
    ensures (forall i :: 0 <= i < |s.intentions| ==> s.intentions[i].id != id) ==> r == []
    ensures forall i :: (0 <= i < |s.intentions| && s.intentions[i].id == id &&
      (forall j :: 0 <= j < i ==> s.intentions[j].id != id)) ==> r == s.intentions[i].tasks
  {
    match GetIntentionById(s, id)
    case None => []
    case Some(x) => x.tasks
  }

  /** Task `k` of intention `i` is the first task carrying `taskId` when the
      intentions are scanned in order and each one's tasks in order. */
  ghost predicate IsFirstTaskMatch(xs: seq<Intention>, taskId: string, i: int, k: int) {
    && 0 <= i < |xs| && 0 <= k < |xs[i].tasks| && xs[i].tasks[k].id == taskId
    && (forall j :: 0 <= j < k ==> xs[i].tasks[j].id != taskId)
    && (forall i', k' :: 0 <= i' < i && 0 <= k' < |xs[i'].tasks| ==> xs[i'].tasks[k'].id != taskId)
  }

  ghost predicate HasTaskAnywhere(xs: seq<Intention>, taskId: string) {
    exists i, k :: 0 <= i < |xs| && 0 <= k < |xs[i].tasks| && xs[i].tasks[k].id == taskId
  }

  /** At most one position is the first match. */
  lemma FirstTaskMatchUnique(xs: seq<Intention>, taskId: string, i: int, k: int, i': int, k': int)
    requires IsFirstTaskMatch(xs, taskId, i, k) && IsFirstTaskMatch(xs, taskId, i', k')
    ensures i == i' && k == k'
  {
  }

  /** `getTaskById(taskId)`: scans the intentions in order and returns the first task
      found with `find`. */
  method GetTaskById(s: CanvasStoreState, taskId: string) returns (r: Option<Task>)
    ensures r.None? <==> !HasTaskAnywhere(s.intentions, taskId)
    ensures r.Some? ==> exists i, k :: (IsFirstTaskMatch(s.intentions, taskId, i, k) &&
      r.value == s.intentions[i].tasks[k])
  {
    var xs := s.intentions;
    var i := 0;
    while i < |xs|
      invariant 0 <= i <= |xs|
      invariant forall i', k' :: 0 <= i' < i && 0 <= k' < |xs[i'].tasks| ==> xs[i'].tasks[k'].id != taskId
    {
      var found := FindFirst(xs[i].tasks, TaskIdIs(taskId));
      if found.Some? {
        var k := found.value;
        assert IsFirstTaskMatch(xs, taskId, i, k);
        return Some(xs[i].tasks[k]);
      }
      i := i + 1;
    }
    return None;
  }
}
