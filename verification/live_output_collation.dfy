/** The live results panel of an intention (src/components/canvas/LiveOutputCollation.tsx):
    which tasks count as finished, whether new results exist, the collated summary
    text, and the edit-buffer state behind the auto-generate, save and cancel
    buttons. */
module LiveOutputCollation {
  import opened Util
  import opened CanvasTypes

  // ---------------------------------------------------------------------------
  // Which tasks and outputs contribute

  function IsCompleted(t: Task): bool {
    t.status == Completed
  }

  function IsResult(o: TaskOutput): bool {
    o.kind == ResultOutput
  }

  function Content(o: TaskOutput): string {
    o.content
  }

  /** `tasks.filter(task => task.status === 'completed')` */
  function CompletedTasks(tasks: seq<Task>): (r: seq<Task>)
    ensures forall i :: 0 <= i < |r| ==> r[i] in tasks && r[i].status == Completed
    ensures forall i :: 0 <= i < |tasks| && tasks[i].status == Completed ==> tasks[i] in r
    ensures |r| == Count(tasks, IsCompleted)
    ensures IsSubsequence(r, tasks)
  {
    FilterIsSubsequence(tasks, IsCompleted);
    Filter(tasks, IsCompleted)
  }

  /** A task's outputs, with absent outputs read as none at all. */
  function OutputsOf(t: Task): seq<TaskOutput> {
    if t.outputs.Some? then t.outputs.value else []
  }

  /** The result-type outputs of a task in order; progress and error outputs are
      dropped. */
  function ResultOutputs(t: Task): (r: seq<TaskOutput>)
    ensures forall k :: 0 <= k < |r| ==> r[k] in OutputsOf(t) && r[k].kind == ResultOutput
    ensures forall k :: 0 <= k < |OutputsOf(t)| && OutputsOf(t)[k].kind == ResultOutput ==> OutputsOf(t)[k] in r
    ensures |r| == Count(OutputsOf(t), IsResult)
    ensures IsSubsequence(r, OutputsOf(t))
  {
    FilterIsSubsequence(OutputsOf(t), IsResult);
    Filter(OutputsOf(t), IsResult)
  }

  /** `task.outputs.some(output => output.type === 'result')` */
  function HasResultOutput(t: Task): (b: bool)
    ensures b <==> exists k :: 0 <= k < |OutputsOf(t)| && OutputsOf(t)[k].kind == ResultOutput
    ensures b <==> |ResultOutputs(t)| > 0
  {
    var b := FindFirst(OutputsOf(t), IsResult).Some?;
    assert b ==> OutputsOf(t)[FindFirst(OutputsOf(t), IsResult).value] in ResultOutputs(t);
    assert |ResultOutputs(t)| > 0 ==> ResultOutputs(t)[0] in OutputsOf(t);
    b
  }

  /** A task contributes a section when it is completed and has a result output. */
  predicate Contributes(t: Task) {
    t.status == Completed && |ResultOutputs(t)| > 0
  }

  /** `hasNewResults`: some completed task has a result output. */
  function HasNewResults(tasks: seq<Task>): (b: bool)
    ensures b <==> exists i :: 0 <= i < |tasks| && Contributes(tasks[i])
  {
    AnyCompletedHasResult(tasks);
    FindFirst(CompletedTasks(tasks), HasResultOutput).Some?
  }

  lemma AnyCompletedHasResult(tasks: seq<Task>)
    ensures FindFirst(CompletedTasks(tasks), HasResultOutput).Some? <==>
            exists i :: 0 <= i < |tasks| && Contributes(tasks[i])
  {
    var completed := CompletedTasks(tasks);
    var found := FindFirst(completed, HasResultOutput);
    if found.Some? {
      assert completed[found.value] in tasks;
    } else {
      forall i | 0 <= i < |tasks| && tasks[i].status == Completed
        ensures !HasResultOutput(tasks[i])
      {
        assert tasks[i] in completed;
      }
    }
  }

  // ---------------------------------------------------------------------------
  // The collated text

  const TaskSeparator := "\n\n---\n\n"
  const OutputSeparator := "\n\n"
  const NoResultsPlaceholder := "No results yet - tasks are still in progress."

  /** A task's section: its title in bold on the first line, then the contents of its
      result outputs separated by blank lines. */
  function Section(t: Task): (r: string)
    ensures |r| >= 2 && r[..2] == "**" && r[0] == '*'
  {
    "**" + t.title + "**\n" + Join(Map(ResultOutputs(t), Content), OutputSeparator)
  }

  /** The per-task value of the source's map step: a section, or null for a completed
      task without result outputs. */
  function SectionOrNull(t: Task): Option<string> {
    if |ResultOutputs(t)| > 0 then Some(Section(t)) else None
  }

  /** A value `.filter(Boolean)` keeps: neither null nor the empty string. */
  predicate Kept(x: Option<string>) {
    x.Some? && x.value != ""
  }

  /** `.filter(Boolean)` over sections and nulls: drops nulls and empty strings and
      keeps the rest, in order; one string per kept entry. */
  function Truthful(xs: seq<Option<string>>): (r: seq<string>)
    ensures |r| == Count(xs, Kept)
    decreases |xs|
  {
    if |xs| == 0 then []
    else if Kept(xs[0]) then [xs[0].value] + Truthful(xs[1..])
    else Truthful(xs[1..])
  }

  /** What `Truthful` keeps: only non-empty strings taken from the input, nothing
      exactly when every entry is null or empty, and the whole input, in order, when
      no entry is. */
  lemma {:induction false} TruthfulKeepsExactly(xs: seq<Option<string>>)
    ensures var r := Truthful(xs);
      && (forall i :: 0 <= i < |r| ==> r[i] != "" && Some(r[i]) in xs)
      && (|r| == 0 <==> forall i :: 0 <= i < |xs| ==> !Kept(xs[i]))
      && ((forall i :: 0 <= i < |xs| ==> Kept(xs[i])) ==>
            |r| == |xs| && forall i :: 0 <= i < |xs| ==> Some(r[i]) == xs[i])
    decreases |xs|
  {
    if |xs| > 0 {
      TruthfulKeepsExactly(xs[1..]);
      assert forall i :: 1 <= i < |xs| ==> xs[i] == xs[1..][i - 1];
    }
  }

  /** The sections, computed the way the source does: completed tasks, mapped to
      section or null, nulls dropped. */
  function Sections(tasks: seq<Task>): seq<string> {
    Truthful(Map(CompletedTasks(tasks), SectionOrNull))
  }

  /** `generateCollatedOutput()`: the sections joined by a rule, or the placeholder
      when that text is empty. */
  function GenerateCollatedOutput(tasks: seq<Task>): (r: string)
    ensures r != ""
  {
    var joined := Join(Sections(tasks), TaskSeparator);
    if joined != "" then joined else NoResultsPlaceholder
  }

  /** The layout of a section: `**`, the title, `**` and a line break, then the
      contents of the task's result outputs, in order, separated by blank lines. */
  lemma SectionLayout(t: Task)
    ensures var r := Section(t);
      var body := Join(Map(ResultOutputs(t), Content), OutputSeparator);
      && |r| == 5 + |t.title| + |body|
      && r[..2] == "**"
      && r[2..2 + |t.title|] == t.title
      && r[2 + |t.title|..5 + |t.title|] == "**\n"
      && r[5 + |t.title|..] == body
  {
  }

  /** The collated text is the contributing tasks' sections, in task order, joined by
      a horizontal rule; the placeholder when no task contributes. */
  lemma CollatedOutputContent(tasks: seq<Task>)
    ensures GenerateCollatedOutput(tasks) ==
      if HasNewResults(tasks) then Join(ContributingSections(tasks), TaskSeparator)
      else NoResultsPlaceholder
  {
    SectionsAreContributing(tasks);
    ContributingSectionsEmpty(tasks);
    if HasNewResults(tasks) {
      ContributingSectionsStartBold(tasks);
      JoinedIsNotPlaceholder(Sections(tasks));
    }
  }

  /** The section a single task contributes, if any. */
  function SectionOf(t: Task): seq<string> {
    if Contributes(t) then [Section(t)] else []
  }

  /** Reference definition: one section per contributing task, in task order. */
  function ContributingSections(tasks: seq<Task>): (r: seq<string>)
    decreases |tasks|
  {
    if |tasks| == 0 then [] else SectionOf(tasks[0]) + ContributingSections(tasks[1..])
  }

  lemma {:induction false} TruthfulAppend(a: seq<Option<string>>, b: seq<Option<string>>)
    ensures Truthful(a + b) == Truthful(a) + Truthful(b)
    decreases |a|
  {
    if |a| == 0 {
      assert a + b == b;
    } else {
      assert (a + b)[1..] == a[1..] + b;
      TruthfulAppend(a[1..], b);
    }
  }

  lemma MapAppend<T, U>(a: seq<T>, b: seq<T>, f: T -> U)
    ensures Map(a + b, f) == Map(a, f) + Map(b, f)
  {
    assert forall i :: 0 <= i < |a + b| ==> Map(a + b, f)[i] == (Map(a, f) + Map(b, f))[i];
  }

  /** The head of the pipeline: a task yields its own section, if any. */
  lemma FirstSection(t: Task)
    ensures Truthful(Map(if IsCompleted(t) then [t] else [], SectionOrNull)) == SectionOf(t)
  {
    var head: seq<Task> := if IsCompleted(t) then [t] else [];
    if Contributes(t) {
      assert Map(head, SectionOrNull) == [Some(Section(t))];
      assert Truthful([Some(Section(t))]) == [Section(t)] + Truthful([]);
    } else if IsCompleted(t) {
      assert Map(head, SectionOrNull) == [None];
      assert Truthful([None]) == [] + Truthful([]);
    }
  }

  lemma CompletedTasksCons(tasks: seq<Task>)
    requires |tasks| > 0
    ensures CompletedTasks(tasks) == (if IsCompleted(tasks[0]) then [tasks[0]] else []) + CompletedTasks(tasks[1..])
  {
  }

  /** The source's map/filter pipeline yields exactly the contributing tasks'
      sections, in task order. */
  lemma {:induction false} SectionsAreContributing(tasks: seq<Task>)
    ensures Sections(tasks) == ContributingSections(tasks)
    decreases |tasks|
  {
    if |tasks| > 0 {
      SectionsAreContributing(tasks[1..]);
      var t := tasks[0];
      var head: seq<Task> := if IsCompleted(t) then [t] else [];
      CompletedTasksCons(tasks);
      MapAppend(head, CompletedTasks(tasks[1..]), SectionOrNull);
      TruthfulAppend(Map(head, SectionOrNull), Map(CompletedTasks(tasks[1..]), SectionOrNull));
      FirstSection(t);
    }
  }

  /** There is no contributing section exactly when no task contributes. */
  lemma {:induction false} ContributingSectionsEmpty(tasks: seq<Task>)
    ensures |ContributingSections(tasks)| == 0 <==> forall i :: 0 <= i < |tasks| ==> !Contributes(tasks[i])
    decreases |tasks|
  {
    if |tasks| > 0 {
      ContributingSectionsEmpty(tasks[1..]);
      assert forall i :: 1 <= i < |tasks| ==> tasks[i] == tasks[1..][i - 1];
    }
  }

  /** Sections that start with `*` never join into the empty text or the
      placeholder, which starts with `N`. */
  lemma JoinedIsNotPlaceholder(sections: seq<string>)
    requires |sections| > 0 && |sections[0]| > 0 && sections[0][0] == '*'
    ensures Join(sections, TaskSeparator) != "" && Join(sections, TaskSeparator) != NoResultsPlaceholder
  {
    var joined := Join(sections, TaskSeparator);
    assert joined[..|sections[0]|] == sections[0];
    assert joined[0] == '*';
    assert NoResultsPlaceholder[0] == 'N' by {
      assert NoResultsPlaceholder == ['N'] + NoResultsPlaceholder[1..];
    }
  }

  /** The placeholder appears exactly when there are no new results: every section
      starts with `**`, so no joined text can equal the placeholder. */
  lemma PlaceholderIffNoNewResults(tasks: seq<Task>)
    ensures GenerateCollatedOutput(tasks) == NoResultsPlaceholder <==> !HasNewResults(tasks)
  {
    SectionsAreContributing(tasks);
    ContributingSectionsEmpty(tasks);
    var sections := Sections(tasks);
    if |sections| > 0 {
      ContributingSectionsStartBold(tasks);
      JoinedIsNotPlaceholder(sections);
    }
  }

  /** Every contributing section starts with `**`. */
  lemma {:induction false} ContributingSectionsStartBold(tasks: seq<Task>)
    ensures forall i :: 0 <= i < |ContributingSections(tasks)| ==>
      |ContributingSections(tasks)[i]| >= 2 && ContributingSections(tasks)[i][..2] == "**"
      && ContributingSections(tasks)[i][0] == '*'
    decreases |tasks|
  {
    if |tasks| > 0 {
      ContributingSectionsStartBold(tasks[1..]);
    }
  }

  /** Only completed tasks matter: collating the completed ones alone gives the same
      text. */
  lemma OnlyCompletedContribute(tasks: seq<Task>)
    ensures GenerateCollatedOutput(CompletedTasks(tasks)) == GenerateCollatedOutput(tasks)
    ensures HasNewResults(CompletedTasks(tasks)) == HasNewResults(tasks)
  {
    var c := CompletedTasks(tasks);
    FilterIdempotent(tasks, IsCompleted);
    assert CompletedTasks(c) == c;
    assert Sections(c) == Sections(tasks);
    assert HasNewResults(c) == (FindFirst(c, HasResultOutput).Some?) == HasNewResults(tasks);
  }

  /** Sections of concatenated task lists are the concatenated sections: section
      order follows task order. */
  lemma {:induction false} SectionsAppend(a: seq<Task>, b: seq<Task>)
    ensures Sections(a + b) == Sections(a) + Sections(b)
    decreases |a|
  {
    SectionsAreContributing(a + b);
    SectionsAreContributing(a);
    SectionsAreContributing(b);
    ContributingAppend(a, b);
  }

  lemma {:induction false} ContributingAppend(a: seq<Task>, b: seq<Task>)
    ensures ContributingSections(a + b) == ContributingSections(a) + ContributingSections(b)
    decreases |a|
  {
    if |a| == 0 {
      assert a + b == b;
    } else {
      assert (a + b)[0] == a[0];
      assert (a + b)[1..] == a[1..] + b;
      ContributingAppend(a[1..], b);
    }
  }

  // ---------------------------------------------------------------------------
  // The code as written, when a completed task has no outputs

  /** Evaluating an expression that may throw a TypeError. */
  datatype Evaluation<T> = Value(value: T) | TypeError

  /** `completedTasks.some(task => task.outputs.some(...))` as written: reading
      `outputs` of a task that has none throws, unless an earlier task already
      answered true. */
  function AsWrittenAnyResult(completed: seq<Task>): Evaluation<bool>
    decreases |completed|
  {
    if |completed| == 0 then Value(false)
    else if completed[0].outputs.None? then TypeError
    else if HasResultOutput(completed[0]) then Value(true)
    else AsWrittenAnyResult(completed[1..])
  }

  /** `hasNewResults` as written. */
  function AsWrittenHasNewResults(tasks: seq<Task>): Evaluation<bool> {
    AsWrittenAnyResult(CompletedTasks(tasks))
  }

  /** `generateCollatedOutput()` as written: the map visits every completed task, so
      one without outputs throws. */
  function AsWrittenGenerate(tasks: seq<Task>): Evaluation<string> {
    var completed := CompletedTasks(tasks);
    if exists i :: 0 <= i < |completed| && completed[i].outputs.None? then TypeError
    else Value(GenerateCollatedOutput(tasks))
  }

  /** A task as the orchestrator materialises it (no outputs), then completed through
      its card: the panel as written throws, while the corrected reading reports no
      results and shows the placeholder. */
  lemma AsWrittenThrowsOnMaterialisedTask(p: TaskPayload, id: string, now: nat)
    requires p.outputs.None?
    ensures var t := PatchTask(NewTask(id, now, p), NoTaskChanges.(status := Some(Completed)));
      && AsWrittenHasNewResults([t]) == TypeError
      && AsWrittenGenerate([t]) == TypeError
      && !HasNewResults([t])
      && GenerateCollatedOutput([t]) == NoResultsPlaceholder
  {
    var t := PatchTask(NewTask(id, now, p), NoTaskChanges.(status := Some(Completed)));
    assert CompletedTasks([t]) == [t];
    assert !Contributes(t);
    PlaceholderIffNoNewResults([t]);
  }

  /** When every completed task carries its outputs, the code as written agrees with
      the corrected reading. */
  lemma {:induction false} AsWrittenAgreesWhenOutputsPresent(completed: seq<Task>)
    requires forall i :: 0 <= i < |completed| ==> completed[i].outputs.Some?
    ensures AsWrittenAnyResult(completed) == Value(exists i :: 0 <= i < |completed| && HasResultOutput(completed[i]))
    decreases |completed|
  {
    if |completed| > 0 {
      var rest := completed[1..];
      assert forall i :: 0 <= i < |rest| ==> rest[i] == completed[i + 1];
      AsWrittenAgreesWhenOutputsPresent(rest);
      ExistsCons(completed, HasResultOutput);
    }
  }

  // ---------------------------------------------------------------------------
  // The panel's edit state

  /** Local state: expanded, editing, and the edit buffer. */
  datatype CollationView = CollationView(isExpanded: bool, editMode: bool, editedOutput: string)

  /** A handler's effect: the new local state and the text handed to
      `onUpdateCollatedOutput`, if it was called. */
  datatype ViewStep = ViewStep(view: CollationView, stored: Option<string>)

  /** JavaScript truthiness of an optional string. */
  predicate Truthy(s: Option<string>) {
    s.Some? && s.value != ""
  }

  /** `collatedOutput || ''` */
  function OrEmpty(s: Option<string>): (r: string)
    ensures Truthy(s) ==> r == s.value
    ensures !Truthy(s) ==> r == ""
  {
    if s.Some? then s.value else ""
  }

  /** The state on mount, and after `collatedOutput` changes. */
  function SyncBuffer(v: CollationView, collated: Option<string>): (r: CollationView)
    ensures r.editedOutput == OrEmpty(collated)
    ensures r.isExpanded == v.isExpanded && r.editMode == v.editMode
  {
    v.(editedOutput := OrEmpty(collated))
  }

  function InitialView(collated: Option<string>): (r: CollationView)
    ensures !r.isExpanded && !r.editMode && r.editedOutput == OrEmpty(collated)
  {
    CollationView(false, false, OrEmpty(collated))
  }

  /** `handleAutoGenerate`: the generated text goes both into the buffer and to the
      intention. */
  function HandleAutoGenerate(v: CollationView, tasks: seq<Task>): (r: ViewStep)
    ensures r.stored == Some(r.view.editedOutput)
    ensures r.view.editedOutput == GenerateCollatedOutput(tasks)
    ensures r.view.editMode == v.editMode && r.view.isExpanded == v.isExpanded
  {
    var generated := GenerateCollatedOutput(tasks);
    ViewStep(v.(editedOutput := generated), Some(generated))
  }

  /** `handleSave`: the buffer goes to the intention and editing ends. */
  function HandleSave(v: CollationView): (r: ViewStep)
    ensures r.stored == Some(v.editedOutput)
    ensures !r.view.editMode && r.view.editedOutput == v.editedOutput && r.view.isExpanded == v.isExpanded
  {
    ViewStep(v.(editMode := false), Some(v.editedOutput))
  }

  /** `handleCancel`: the buffer is restored from the stored output and editing ends;
      nothing is stored. */
  function HandleCancel(v: CollationView, collated: Option<string>): (r: ViewStep)
    ensures r.stored.None?
    ensures !r.view.editMode && r.view.editedOutput == OrEmpty(collated) && r.view.isExpanded == v.isExpanded
  {
    ViewStep(v.(editedOutput := OrEmpty(collated), editMode := false), None)
  }

  /** The Edit button's action. */
  function StartEditing(v: CollationView): (r: CollationView)
    ensures r.editMode && r.editedOutput == v.editedOutput && r.isExpanded == v.isExpanded
  {
    v.(editMode := true)
  }

  /** The panel renders only when some task is completed. */
  predicate IsRendered(tasks: seq<Task>) {
    |CompletedTasks(tasks)| > 0
  }

  /** The panel renders exactly when some task is completed. */
  lemma RenderedIffSomeCompleted(tasks: seq<Task>)
    ensures IsRendered(tasks) <==> exists i :: 0 <= i < |tasks| && tasks[i].status == Completed
  {
    var completed := CompletedTasks(tasks);
    if |completed| > 0 {
      assert completed[0] in tasks;
    }
  }

  /** The pulsing badge and the Auto-Generate button share one condition. */
  predicate OffersAutoGenerate(tasks: seq<Task>, collated: Option<string>) {
    !Truthy(collated) && HasNewResults(tasks)
  }

  predicate OffersEdit(v: CollationView, collated: Option<string>) {
    Truthy(collated) && !v.editMode
  }

  /** Auto-Generate is offered only on a rendered panel. */
  lemma AutoGenerateOnlyWhenRendered(tasks: seq<Task>, collated: Option<string>)
    ensures OffersAutoGenerate(tasks, collated) ==> IsRendered(tasks)
  {
    if OffersAutoGenerate(tasks, collated) {
      var i :| 0 <= i < |tasks| && Contributes(tasks[i]);
      assert tasks[i] in CompletedTasks(tasks);
    }
  }

  /** Once the generated text is stored, the button disappears and Edit is offered
      instead: the generated text is never empty. */
  lemma AutoGenerateReplacesButtonWithEdit(v: CollationView, tasks: seq<Task>)
    requires !v.editMode
    ensures var step := HandleAutoGenerate(v, tasks);
      !OffersAutoGenerate(tasks, step.stored) && OffersEdit(step.view, step.stored)
  {
  }

  /** Saving hands the buffer to the intention; when the stored output then comes back
      as the new `collatedOutput`, the re-sync leaves the buffer as it was, not
      editing. */
  lemma SaveThenSyncKeepsBuffer(v: CollationView)
    ensures var saved := HandleSave(v);
      var synced := SyncBuffer(saved.view, saved.stored);
      synced.editedOutput == v.editedOutput && !synced.editMode && synced.isExpanded == v.isExpanded
  {
  }

  /** Cancelling discards edits: after edit and cancel the buffer matches the stored
      output, whatever was typed. */
  lemma CancelDiscardsTyping(v: CollationView, collated: Option<string>, typed: string)
    ensures HandleCancel(StartEditing(v).(editedOutput := typed), collated).view
         == SyncBuffer(v.(editMode := false), collated)
  {
  }
}
