/**
 * The study plan of the dashboard: an ordered list of study tasks and the new
 * lists its handlers compute from it with `map`, `filter` and spread.
 */
module StudyPlan {
  import opened ArrayOps

  datatype StudyTask = StudyTask(id: string, title: string, description: string, completed: bool, dueDate: string)

  /** The task form's draft: the three text fields the user types into. */
  datatype TaskDraft = TaskDraft(title: string, description: string, dueDate: string)

  const EmptyTaskDraft := TaskDraft("", "", "")

  /** The three tasks the dashboard starts with. */
  const InitialStudyPlan: seq<StudyTask> := [
    StudyTask("1", "Arrays & Strings", "Master basic array operations and string manipulation", true, "2025-03-20"),
    StudyTask("2", "Linked Lists", "Understanding singly and doubly linked lists", false, "2025-03-22"),
    StudyTask("3", "Trees & Graphs", "Binary trees, BST, and graph traversal", false, "2025-03-25")
  ]

  function TaskId(t: StudyTask): string { t.id }

  /** No two tasks share an id. The ids come from the wall clock; nothing enforces this. */
  ghost predicate UniqueIds(tasks: seq<StudyTask>)
  {
    DistinctBy(TaskId, tasks)
  }

  ghost predicate HasId(tasks: seq<StudyTask>, id: string)
  {
    exists i :: 0 <= i < |tasks| && tasks[i].id == id
  }

  /** JavaScript's `a || b` on strings: the empty string is falsy, so it falls back to `b`. */
  function OrElse(a: string, b: string): string
  {
    if a != "" then a else b
  }

  /** The draft that editing `t` starts from: its own three text fields. */
  function DraftOf(t: StudyTask): TaskDraft
  {
    TaskDraft(t.title, t.description, t.dueDate)
  }

  /** The list after the completion checkbox of the tasks with id `id` is clicked. */
  function Toggle(tasks: seq<StudyTask>, id: string): (r: seq<StudyTask>)
    ensures |r| == |tasks|
    ensures forall i :: 0 <= i < |r| ==>
      && r[i].id == tasks[i].id
      && r[i].title == tasks[i].title
      && r[i].description == tasks[i].description
      && r[i].dueDate == tasks[i].dueDate
      && (r[i].completed <==> (tasks[i].completed <==> tasks[i].id != id))
  {
    Map((t: StudyTask) => if t.id == id then t.(completed := !t.completed) else t, tasks)
  }

  /** The list after the add form is submitted: one fresh, uncompleted task at the end. */
  function AddTask(tasks: seq<StudyTask>, id: string, draft: TaskDraft): (r: seq<StudyTask>)
    ensures |r| == |tasks| + 1
    ensures r[..|tasks|] == tasks
    ensures r[|tasks|].id == id && !r[|tasks|].completed
    ensures DraftOf(r[|tasks|]) == draft
  {
    tasks + [StudyTask(id, draft.title, draft.description, false, draft.dueDate)]
  }

  /**
   * The list after the edit form is saved for id `id`: on the matching tasks a
   * non-empty draft field replaces the old value and an empty one keeps it.
   */
  function Edit(tasks: seq<StudyTask>, id: string, draft: TaskDraft): (r: seq<StudyTask>)
    ensures |r| == |tasks|
    ensures forall i :: 0 <= i < |r| ==>
      r[i].id == tasks[i].id && r[i].completed == tasks[i].completed
    ensures forall i :: 0 <= i < |r| && tasks[i].id != id ==> r[i] == tasks[i]
    ensures forall i :: 0 <= i < |r| && tasks[i].id == id ==>
      && r[i].title == (if draft.title == "" then tasks[i].title else draft.title)
      && r[i].description == (if draft.description == "" then tasks[i].description else draft.description)
      && r[i].dueDate == (if draft.dueDate == "" then tasks[i].dueDate else draft.dueDate)
  {
    Map((t: StudyTask) =>
          if t.id == id then
            t.(title := OrElse(draft.title, t.title),
               description := OrElse(draft.description, t.description),
               dueDate := OrElse(draft.dueDate, t.dueDate))
          else t,
        tasks)
  }

  /** The list after a confirmed delete: every task with id `id` is gone, the rest keep their order. */
  function Remove(tasks: seq<StudyTask>, id: string): (r: seq<StudyTask>)
    ensures forall t :: t in r <==> t in tasks && t.id != id
    ensures forall t :: multiset(r)[t] == if t.id != id then multiset(tasks)[t] else 0
    ensures IsSubsequence(r, tasks)
  {
    FilterIsSubsequence((t: StudyTask) => t.id != id, tasks);
    FilterCounts((t: StudyTask) => t.id != id, tasks);
    FilterMembership((t: StudyTask) => t.id != id, tasks);
    Filter((t: StudyTask) => t.id != id, tasks)
  }

  /** Clicking the checkbox twice gives back the original list. */
  lemma ToggleTwice(tasks: seq<StudyTask>, id: string)
    ensures Toggle(Toggle(tasks, id), id) == tasks
  {
  }

  /** Toggling an id no task has leaves the list as it was. */
  lemma ToggleAbsent(tasks: seq<StudyTask>, id: string)
    requires !HasId(tasks, id)
    ensures Toggle(tasks, id) == tasks
  {
  }

  /** Saving an edit whose draft is all empty leaves the list as it was. */
  lemma EditWithEmptyDraft(tasks: seq<StudyTask>, id: string)
    ensures Edit(tasks, id, EmptyTaskDraft) == tasks
  {
  }

  /**
   * Starting to edit a task and saving the unchanged draft gives back the
   * original list, provided no other task shares the edited task's id.
   */
  lemma StartEditThenSave(tasks: seq<StudyTask>, t: StudyTask)
    requires UniqueIds(tasks)
    requires t in tasks
    ensures Edit(tasks, t.id, DraftOf(t)) == tasks
  {
    var r := Edit(tasks, t.id, DraftOf(t));
    var k :| 0 <= k < |tasks| && tasks[k] == t;
    forall i | 0 <= i < |tasks| ensures r[i] == tasks[i] {
      if tasks[i].id == t.id {
        assert i == k by {
          assert TaskId(tasks[i]) == TaskId(tasks[k]);
          assert !(i < k) && !(k < i);
        }
        assert r[i].title == t.title && r[i].description == t.description && r[i].dueDate == t.dueDate;
      }
    }
    assert |r| == |tasks|;
  }

  /** With duplicate ids the round trip above fails: the twin is overwritten with the edited task's text. */
  lemma StartEditThenSaveWithDuplicateIds()
    ensures var tasks := [StudyTask("1", "a", "x", false, "d"), StudyTask("1", "b", "y", false, "d")];
            var r := Edit(tasks, tasks[0].id, DraftOf(tasks[0]));
            r[1].title == "a" && r[1].description == "x" && r != tasks
  {
  }

  /** Deleting an id no task has leaves the list as it was. */
  lemma RemoveAbsent(tasks: seq<StudyTask>, id: string)
    requires !HasId(tasks, id)
    ensures Remove(tasks, id) == tasks
  {
    FilterKeepsAll((t: StudyTask) => t.id != id, tasks);
  }

  /** Deleting the id of a task in a list with unique ids removes exactly one task. */
  lemma {:induction false} RemovePresent(tasks: seq<StudyTask>, id: string)
    requires UniqueIds(tasks)
    requires HasId(tasks, id)
    ensures |Remove(tasks, id)| == |tasks| - 1
  {
    var p := (t: StudyTask) => t.id != id;
    var tail := tasks[1..];
    if tasks[0].id == id {
      forall i | 0 <= i < |tail| ensures p(tail[i]) {
        assert TaskId(tasks[0]) != TaskId(tasks[i + 1]);
      }
      FilterKeepsAll(p, tail);
    } else {
      var k :| 0 <= k < |tasks| && tasks[k].id == id;
      assert tail[k - 1].id == id;
      assert UniqueIds(tail) by {
        forall i, j | 0 <= i < j < |tail| ensures TaskId(tail[i]) != TaskId(tail[j]) {
          assert TaskId(tasks[i + 1]) != TaskId(tasks[j + 1]);
        }
      }
      RemovePresent(tail, id);
    }
  }

  /** Adding with an id no task has keeps the ids unique. */
  lemma AddTaskKeepsUnique(tasks: seq<StudyTask>, id: string, draft: TaskDraft)
    requires UniqueIds(tasks)
    requires !HasId(tasks, id)
    ensures UniqueIds(AddTask(tasks, id, draft))
  {
  }

  /** A toggle never makes two tasks share an id. */
  lemma ToggleKeepsUnique(tasks: seq<StudyTask>, id: string)
    requires UniqueIds(tasks)
    ensures UniqueIds(Toggle(tasks, id))
  {
    var t := Toggle(tasks, id);
    assert forall i :: 0 <= i < |tasks| ==> TaskId(t[i]) == TaskId(tasks[i]);
  }

  /** An edit never makes two tasks share an id. */
  lemma EditKeepsUnique(tasks: seq<StudyTask>, id: string, draft: TaskDraft)
    requires UniqueIds(tasks)
    ensures UniqueIds(Edit(tasks, id, draft))
  {
    var e := Edit(tasks, id, draft);
    assert forall i :: 0 <= i < |tasks| ==> TaskId(e[i]) == TaskId(tasks[i]);
  }

  /** A delete never makes two tasks share an id. */
  lemma RemoveKeepsUnique(tasks: seq<StudyTask>, id: string)
    requires UniqueIds(tasks)
    ensures UniqueIds(Remove(tasks, id))
  {
    FilterPreservesDistinct(TaskId, (t: StudyTask) => t.id != id, tasks);
  }
}
