/** The task list view: the add form with its blank-title guard, the toggle of
    a task's completion, and the completion count and progress shown above the
    list. The view's writes go to the task store as requests; the list itself
    is refreshed from the store, so a handler never edits it directly. */
module Tasks {
  import opened Seqs
  import opened Text
  import opened Store

  datatype Task = Task(id: Id, userId: Id, title: string, description: string, completed: bool)

  /** A partial update of a task: the fields present are written, the others kept. */
  datatype TaskPatch = TaskPatch(title: Option<string>, description: Option<string>, completed: Option<bool>)

  /** A write the view asks the task store for. `formLocked` records whether
      the form was disabled while the add was in flight. */
  datatype TaskRequest =
    | AddRequest(title: string, description: string, formLocked: bool)
    | UpdateRequest(taskId: Id, patch: TaskPatch)

  /** The store's effect of an update on one task: `{ ...task, ...updates }`. */
  function ApplyPatch(t: Task, patch: TaskPatch): (r: Task)
    ensures r.id == t.id && r.userId == t.userId
    ensures r.title == (if patch.title.Some? then patch.title.value else t.title)
    ensures r.description == (if patch.description.Some? then patch.description.value else t.description)
    ensures r.completed == (if patch.completed.Some? then patch.completed.value else t.completed)
  {
    Task(t.id, t.userId,
         if patch.title.Some? then patch.title.value else t.title,
         if patch.description.Some? then patch.description.value else t.description,
         if patch.completed.Some? then patch.completed.value else t.completed)
  }

  /** `{ completed: !task.completed }` */
  function TogglePatch(t: Task): (p: TaskPatch)
    ensures p.title.None? && p.description.None? && p.completed == Some(!t.completed)
  {
    TaskPatch(None, None, Some(!t.completed))
  }

  /** Applying a toggle flips `completed` and changes no other field; toggling
      twice restores the task. */
  lemma ToggleFlipsOnlyCompleted(t: Task)
    ensures ApplyPatch(t, TogglePatch(t)) == t.(completed := !t.completed)
    ensures var t1 := ApplyPatch(t, TogglePatch(t)); ApplyPatch(t1, TogglePatch(t1)) == t
  {
  }

  /** `!title.trim()`: the title is empty or only whitespace. */
  predicate Blank(title: string)
  {
    Trim(title) == []
  }

  /** A title is blank exactly when every character of it is whitespace. */
  lemma BlankIsAllWhitespace(title: string)
    ensures Blank(title) <==> forall i :: 0 <= i < |title| ==> IsWhitespace(title[i])
  {
  }

  /** `isAdding || !newTaskTitle.trim()` */
  predicate AddDisabled(isAdding: bool, title: string)
    ensures isAdding ==> AddDisabled(isAdding, title)
    ensures title == [] ==> AddDisabled(isAdding, title)
  {
    isAdding || Blank(title)
  }

  /** The add button is disabled exactly while an add is in flight or when the
      title is all whitespace, and so is enabled only for a title the submit
      handler accepts. */
  lemma AddButtonRule(isAdding: bool, title: string)
    ensures AddDisabled(isAdding, title) <==>
      isAdding || forall i :: 0 <= i < |title| ==> IsWhitespace(title[i])
    ensures !AddDisabled(isAdding, title) ==> !Blank(title) && exists i :: 0 <= i < |title| && !IsWhitespace(title[i])
  {
    BlankIsAllWhitespace(title);
  }

  /** `tasks.filter(t => t.completed).length` */
  function CompletedCount(tasks: seq<Task>): (n: nat)
    ensures n <= |tasks|
  {
    |Filter((t: Task) => t.completed, tasks)|
  }

  /** The count is the whole list exactly when every task is completed, and 0
      exactly when none is. */
  lemma {:induction false} CompletedCountBounds(tasks: seq<Task>)
    ensures CompletedCount(tasks) == |tasks| <==> forall i :: 0 <= i < |tasks| ==> tasks[i].completed
    ensures CompletedCount(tasks) == 0 <==> forall i :: 0 <= i < |tasks| ==> !tasks[i].completed
  {
    if tasks != [] {
      CompletedCountBounds(tasks[1..]);
      assert forall i :: 1 <= i < |tasks| ==> tasks[i] == tasks[1..][i - 1];
    }
  }

  /** Once the store has applied a toggle to the task at index i, the count
      has moved by exactly one, up when the task was open and down when it was
      done. */
  lemma {:induction false} ToggleMovesCountByOne(tasks: seq<Task>, i: nat)
    requires i < |tasks|
    ensures var after := tasks[i := ApplyPatch(tasks[i], TogglePatch(tasks[i]))];
      CompletedCount(after) == CompletedCount(tasks) + (if tasks[i].completed then -1 else 1)
  {
    var done := (t: Task) => t.completed;
    var t := tasks[i];
    var t' := ApplyPatch(t, TogglePatch(t));
    var after := tasks[i := t'];
    assert tasks == tasks[..i] + [t] + tasks[i + 1..];
    assert after == tasks[..i] + [t'] + tasks[i + 1..];
    FilterConcat(done, tasks[..i] + [t], tasks[i + 1..]);
    FilterConcat(done, tasks[..i], [t]);
    FilterConcat(done, tasks[..i] + [t'], tasks[i + 1..]);
    FilterConcat(done, tasks[..i], [t']);
    assert Filter(done, [t]) == (if t.completed then [t] else []);
    assert Filter(done, [t']) == (if t'.completed then [t'] else []);
  }

  /** The progress bar's width as the fraction `num / den` of the full bar. */
  datatype Fraction = Fraction(num: nat, den: nat)

  /** `totalCount > 0 ? completedCount / totalCount : 0`, kept exact. */
  function Progress(tasks: seq<Task>): (f: Fraction)
    ensures f.den > 0 && f.num <= f.den
    ensures tasks == [] ==> f.num == 0
    ensures tasks != [] ==> f == Fraction(CompletedCount(tasks), |tasks|)
  {
    if |tasks| > 0 then Fraction(CompletedCount(tasks), |tasks|) else Fraction(0, 1)
  }

  /** The bar is full exactly when there are tasks and all are completed. */
  lemma ProgressFull(tasks: seq<Task>)
    ensures Progress(tasks).num == Progress(tasks).den <==>
      tasks != [] && forall i :: 0 <= i < |tasks| ==> tasks[i].completed
  {
    CompletedCountBounds(tasks);
  }

  /** The state of the task list view: the tasks the store last delivered,
      the two form fields, the in-flight flag, and the requests sent so far. */
  class TaskListView {
    var tasks: seq<Task>
    var newTaskTitle: string
    var newTaskDesc: string
    var isAdding: bool
    var requests: seq<TaskRequest>

    constructor (tasks: seq<Task>)
      ensures this.tasks == tasks && newTaskTitle == "" && newTaskDesc == "" && !isAdding && requests == []
    {
      this.tasks := tasks;
      newTaskTitle := "";
      newTaskDesc := "";
      isAdding := false;
      requests := [];
    }

    /** `handleAddTask`: a blank title does nothing; otherwise the title and
        description go to the store as typed, with the form locked, and then
        both fields are cleared and the form unlocked, whatever the store
        answered. */
    method HandleAddTask()
      modifies this
      ensures Blank(old(newTaskTitle)) ==>
        && newTaskTitle == old(newTaskTitle) && newTaskDesc == old(newTaskDesc)
        && isAdding == old(isAdding) && requests == old(requests)
      ensures !Blank(old(newTaskTitle)) ==>
        && requests == old(requests) + [AddRequest(old(newTaskTitle), old(newTaskDesc), true)]
        && newTaskTitle == "" && newTaskDesc == "" && !isAdding
      ensures tasks == old(tasks)
    {
      if Blank(newTaskTitle) {
        return;
      }
      isAdding := true;
      requests := requests + [AddRequest(newTaskTitle, newTaskDesc, isAdding)];
      newTaskTitle := "";
      newTaskDesc := "";
      isAdding := false;
    }

    /** `handleToggleTask`: asks the store to flip the task's completion. */
    method HandleToggleTask(task: Task)
      modifies this
      ensures requests == old(requests) + [UpdateRequest(task.id, TogglePatch(task))]
      ensures tasks == old(tasks) && newTaskTitle == old(newTaskTitle)
      ensures newTaskDesc == old(newTaskDesc) && isAdding == old(isAdding)
    {
      requests := requests + [UpdateRequest(task.id, TogglePatch(task))];
    }
  }
}
