/** The canvas toolbar (src/components/canvas/CanvasToolbar.tsx): clamped zoom steps,
    the view reset, and the intention and task statistics it displays. */
module CanvasToolbar {
  import opened Util
  import opened CanvasTypes
  import opened CanvasStore

  const ZoomFactor := 1.2
  const MaxZoom := 3.0
  const MinZoom := 0.3

  /** `Math.min(zoom * 1.2, 3)` */
  function ZoomIn(zoom: real): (r: real)
    ensures r <= 3.0 && r <= zoom * 1.2
    ensures r == 3.0 || r == zoom * 1.2
  {
    if zoom * ZoomFactor < MaxZoom then zoom * ZoomFactor else MaxZoom
  }

  /** `Math.max(zoom / 1.2, 0.3)` */
  function ZoomOut(zoom: real): (r: real)
    ensures r >= 0.3 && r >= zoom / 1.2
    ensures r == 0.3 || r == zoom / 1.2
  {
    if zoom / ZoomFactor > MinZoom then zoom / ZoomFactor else MinZoom
  }

  predicate InZoomRange(zoom: real) {
    MinZoom <= zoom <= MaxZoom
  }

  /** Both buttons keep a zoom inside [0.3, 3] inside it. */
  lemma ZoomStaysInRange(zoom: real)
    requires InZoomRange(zoom)
    ensures InZoomRange(ZoomIn(zoom)) && InZoomRange(ZoomOut(zoom))
  {
  }

  /** Away from the clamps, zooming out undoes zooming in and vice versa. */
  lemma ZoomStepsAreInverse(zoom: real)
    ensures 0.3 <= zoom <= 2.5 ==> ZoomOut(ZoomIn(zoom)) == zoom
    ensures 0.36 <= zoom <= 3.0 ==> ZoomIn(ZoomOut(zoom)) == zoom
  {
  }

  /** `handleZoomIn`: only the zoom changes. */
  function HandleZoomIn(s: CanvasStoreState): (r: CanvasStoreState)
    ensures r.canvasState.zoom == ZoomIn(s.canvasState.zoom)
    ensures r.canvasState.panX == s.canvasState.panX && r.canvasState.panY == s.canvasState.panY
    ensures r.intentions == s.intentions && r.activeIntention == s.activeIntention
    ensures r.isCreatingIntention == s.isCreatingIntention
  {
    UpdateCanvasState(s, CanvasPatch(Some(ZoomIn(s.canvasState.zoom)), None, None))
  }

  /** `handleZoomOut`: only the zoom changes. */
  function HandleZoomOut(s: CanvasStoreState): (r: CanvasStoreState)
    ensures r.canvasState.zoom == ZoomOut(s.canvasState.zoom)
    ensures r.canvasState.panX == s.canvasState.panX && r.canvasState.panY == s.canvasState.panY
    ensures r.intentions == s.intentions && r.activeIntention == s.activeIntention
    ensures r.isCreatingIntention == s.isCreatingIntention
  {
    UpdateCanvasState(s, CanvasPatch(Some(ZoomOut(s.canvasState.zoom)), None, None))
  }

  /** `handleResetZoom`: zoom 1 and no pan, intentions untouched (unlike the store's
      `resetCanvas`). */
  function HandleResetZoom(s: CanvasStoreState): (r: CanvasStoreState)
    ensures r.canvasState == CanvasState(1.0, 0.0, 0.0)
    ensures r.intentions == s.intentions && r.activeIntention == s.activeIntention
    ensures r.isCreatingIntention == s.isCreatingIntention
  {
    UpdateCanvasState(s, CanvasPatch(Some(1.0), Some(0.0), Some(0.0)))
  }

  /** Reset view and the store reset agree on the view state. */
  lemma ResetZoomMatchesResetCanvas(s: CanvasStoreState)
    ensures HandleResetZoom(s).canvasState == ResetCanvas(s).canvasState
  {
  }

  // ---------------------------------------------------------------------------
  // Statistics

  function HasStatus(status: IntentionStatus): Intention -> bool {
    (x: Intention) => x.status == status
  }

  /** `intentions.filter(i => i.status === status).length` */
  function StatusCount(xs: seq<Intention>, status: IntentionStatus): (n: nat)
    ensures n == Count(xs, HasStatus(status))
  {
    |Filter(xs, HasStatus(status))|
  }

  /** The reference sum of task-list lengths, accumulated left to right as `reduce`
      does. */
  function SumTasks(xs: seq<Intention>): nat
    decreases |xs|
  {
    if |xs| == 0 then 0 else SumTasks(xs[..|xs| - 1]) + |xs[|xs| - 1].tasks|
  }

  /** `intentions.reduce((acc, i) => acc + i.tasks.length, 0)` */
  method TotalTasks(xs: seq<Intention>) returns (total: nat)
    ensures total == SumTasks(xs)
  {
    total := 0;
    var i := 0;
    while i < |xs|
      invariant 0 <= i <= |xs|
      invariant total == SumTasks(xs[..i])
    {
      assert xs[..i + 1][..i] == xs[..i];
      total := total + |xs[i].tasks|;
      i := i + 1;
    }
    assert xs[..|xs|] == xs;
  }

  /** The counts the toolbar shows. */
  datatype ToolbarStats = ToolbarStats(intentions: nat, active: nat, completed: nat, tasks: nat)

  method Stats(s: CanvasStoreState) returns (r: ToolbarStats)
    ensures r.intentions == |s.intentions|
    ensures r.active == Count(s.intentions, HasStatus(Active))
    ensures r.completed == Count(s.intentions, HasStatus(Fulfilled))
    ensures r.tasks == SumTasks(s.intentions)
    ensures r.active + r.completed <= r.intentions
  {
    var total := TotalTasks(s.intentions);
    ActivePlusFulfilledBounded(s.intentions);
    r := ToolbarStats(|s.intentions|, StatusCount(s.intentions, Active),
                      StatusCount(s.intentions, Fulfilled), total);
  }

  /** No intention is both active and fulfilled, so the two counts together never
      exceed the number of intentions. */
  lemma {:induction false} ActivePlusFulfilledBounded(xs: seq<Intention>)
    ensures Count(xs, HasStatus(Active)) + Count(xs, HasStatus(Fulfilled)) <= |xs|
    decreases |xs|
  {
    if |xs| > 0 {
      ActivePlusFulfilledBounded(xs[1..]);
    }
  }

  /** Adding one task to an intention whose id is unique raises the total by one. */
  lemma AddTaskRaisesTotal(s: CanvasStoreState, k: nat, taskId: string, p: TaskPayload, now: nat)
    requires k < |s.intentions|
    requires forall j :: 0 <= j < |s.intentions| && j != k ==> s.intentions[j].id != s.intentions[k].id
    ensures SumTasks(AddTask(s, s.intentions[k].id, taskId, p, now).intentions) == SumTasks(s.intentions) + 1
  {
    var r := AddTask(s, s.intentions[k].id, taskId, p, now);
    SumTasksOneMore(r.intentions, s.intentions, k);
  }

  /** Two lists of equal length whose task counts agree except one position with one
      more task have totals differing by one. */
  lemma {:induction false} SumTasksOneMore(a: seq<Intention>, b: seq<Intention>, k: nat)
    requires |a| == |b| && k < |a|
    requires forall j :: 0 <= j < |a| && j != k ==> |a[j].tasks| == |b[j].tasks|
    requires |a[k].tasks| == |b[k].tasks| + 1
    ensures SumTasks(a) == SumTasks(b) + 1
    decreases |a|
  {
    var n := |a| - 1;
    if k == n {
      SumTasksSame(a[..n], b[..n]);
    } else {
      SumTasksOneMore(a[..n], b[..n], k);
    }
  }

  lemma {:induction false} SumTasksSame(a: seq<Intention>, b: seq<Intention>)
    requires |a| == |b|
    requires forall j :: 0 <= j < |a| ==> |a[j].tasks| == |b[j].tasks|
    ensures SumTasks(a) == SumTasks(b)
    decreases |a|
  {
    if |a| > 0 {
      SumTasksSame(a[..|a| - 1], b[..|b| - 1]);
    }
  }
}
