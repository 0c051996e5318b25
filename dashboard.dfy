/**
 * The dashboard component's state and its event handlers. Each handler
 * replaces a list with the new one computed by the StudyPlan or Applications
 * functions and, where the component does so, resets the drafts.
 */
module DashboardComponent {
  import opened Optional
  import opened StudyPlan
  import opened Applications

  /** JavaScript's `if (x)` on a `string | null`: both `null` and the empty string are falsy. */
  predicate Truthy(x: Option<string>)
  {
    x.Some? && x.value != ""
  }

  class Dashboard {
    var studyPlan: seq<StudyTask>
    var applications: seq<JobApplication>
    var editingTaskId: Option<string>
    var newTask: TaskDraft
    var newApplication: ApplicationDraft

    constructor ()
      ensures studyPlan == InitialStudyPlan && applications == InitialApplications
      ensures editingTaskId == None && newTask == EmptyTaskDraft && newApplication == EmptyApplicationDraft
    {
      studyPlan := InitialStudyPlan;
      applications := InitialApplications;
      editingTaskId := None;
      newTask := EmptyTaskDraft;
      newApplication := EmptyApplicationDraft;
    }

    /** Clicking a task's checkbox. */
    method ToggleTaskCompletion(taskId: string)
      modifies this
      ensures studyPlan == Toggle(old(studyPlan), taskId)
      ensures old(StudyPlan.UniqueIds(studyPlan)) ==> StudyPlan.UniqueIds(studyPlan)
      ensures applications == old(applications) && editingTaskId == old(editingTaskId)
      ensures newTask == old(newTask) && newApplication == old(newApplication)
    {
      if StudyPlan.UniqueIds(studyPlan) {
        ToggleKeepsUnique(studyPlan, taskId);
      }
      studyPlan := Toggle(studyPlan, taskId);
    }

    /** Submitting the add-task form; `id` stands for the wall-clock id the component generates. */
    method HandleAddTask(id: string)
      modifies this
      ensures studyPlan == AddTask(old(studyPlan), id, old(newTask))
      ensures old(StudyPlan.UniqueIds(studyPlan)) && !old(StudyPlan.HasId(studyPlan, id)) ==> StudyPlan.UniqueIds(studyPlan)
      ensures newTask == EmptyTaskDraft
      ensures applications == old(applications) && editingTaskId == old(editingTaskId)
      ensures newApplication == old(newApplication)
    {
      if StudyPlan.UniqueIds(studyPlan) && !StudyPlan.HasId(studyPlan, id) {
        AddTaskKeepsUnique(studyPlan, id, newTask);
      }
      studyPlan := AddTask(studyPlan, id, newTask);
      newTask := EmptyTaskDraft;
    }

    /** Submitting the edit form: does nothing unless a task is being edited. */
    method HandleEditTask()
      modifies this
      ensures Truthy(old(editingTaskId)) ==>
        && studyPlan == Edit(old(studyPlan), old(editingTaskId).value, old(newTask))
        && editingTaskId == None && newTask == EmptyTaskDraft
      ensures !Truthy(old(editingTaskId)) ==>
        studyPlan == old(studyPlan) && editingTaskId == old(editingTaskId) && newTask == old(newTask)
      ensures old(StudyPlan.UniqueIds(studyPlan)) ==> StudyPlan.UniqueIds(studyPlan)
      ensures applications == old(applications) && newApplication == old(newApplication)
    {
      if Truthy(editingTaskId) {
        if StudyPlan.UniqueIds(studyPlan) {
          EditKeepsUnique(studyPlan, editingTaskId.value, newTask);
        }
        studyPlan := Edit(studyPlan, editingTaskId.value, newTask);
        editingTaskId := None;
        newTask := EmptyTaskDraft;
      }
    }

    /** Clicking a task's edit button: the draft is filled from the task. */
    method StartEditTask(task: StudyTask)
      modifies this
      ensures editingTaskId == Some(task.id) && newTask == DraftOf(task)
      ensures studyPlan == old(studyPlan) && applications == old(applications)
      ensures newApplication == old(newApplication)
    {
      editingTaskId := Some(task.id);
      newTask := DraftOf(task);
    }

    /** Closing the edit form: the edit ends, but the draft keeps the edited task's text. */
    method CancelEdit()
      modifies this
      ensures editingTaskId == None
      ensures studyPlan == old(studyPlan) && applications == old(applications)
      ensures newTask == old(newTask) && newApplication == old(newApplication)
    {
      editingTaskId := None;
    }

    /** Clicking a task's delete button; `confirmed` is the user's answer to the confirmation prompt. */
    method DeleteTask(taskId: string, confirmed: bool)
      modifies this
      ensures studyPlan == if confirmed then StudyPlan.Remove(old(studyPlan), taskId) else old(studyPlan)
      ensures old(StudyPlan.UniqueIds(studyPlan)) ==> StudyPlan.UniqueIds(studyPlan)
      ensures applications == old(applications) && editingTaskId == old(editingTaskId)
      ensures newTask == old(newTask) && newApplication == old(newApplication)
    {
      if confirmed {
        if StudyPlan.UniqueIds(studyPlan) {
          StudyPlan.RemoveKeepsUnique(studyPlan, taskId);
        }
        studyPlan := StudyPlan.Remove(studyPlan, taskId);
      }
    }

    /** Submitting the add-application form; `id` stands for the wall-clock id the component generates. */
    method HandleAddApplication(id: string)
      modifies this
      ensures applications == AddApplication(old(applications), id, old(newApplication))
      ensures old(Applications.UniqueIds(applications)) && !old(Applications.HasId(applications, id)) ==>
        Applications.UniqueIds(applications)
      ensures newApplication == EmptyApplicationDraft
      ensures studyPlan == old(studyPlan) && editingTaskId == old(editingTaskId) && newTask == old(newTask)
    {
      if Applications.UniqueIds(applications) && !Applications.HasId(applications, id) {
        AddApplicationKeepsUnique(applications, id, newApplication);
      }
      applications := AddApplication(applications, id, newApplication);
      newApplication := EmptyApplicationDraft;
    }

    /** Setting an application's status. */
    method UpdateApplicationStatus(appId: string, newStatus: Status)
      modifies this
      ensures applications == UpdateStatus(old(applications), appId, newStatus)
      ensures old(Applications.UniqueIds(applications)) ==> Applications.UniqueIds(applications)
      ensures studyPlan == old(studyPlan) && editingTaskId == old(editingTaskId)
      ensures newTask == old(newTask) && newApplication == old(newApplication)
    {
      if Applications.UniqueIds(applications) {
        UpdateStatusKeepsUnique(applications, appId, newStatus);
      }
      applications := UpdateStatus(applications, appId, newStatus);
    }

    /** Pressing the status button of the row that shows `app`. */
    method CycleApplicationStatus(app: JobApplication)
      modifies this
      ensures applications == CycleStatus(old(applications), app)
      ensures old(Applications.UniqueIds(applications)) ==> Applications.UniqueIds(applications)
      ensures studyPlan == old(studyPlan) && editingTaskId == old(editingTaskId)
      ensures newTask == old(newTask) && newApplication == old(newApplication)
    {
      UpdateApplicationStatus(app.id, NextStatus(app.status));
    }

    /** Clicking an application's delete button; `confirmed` is the user's answer to the confirmation prompt. */
    method DeleteApplication(appId: string, confirmed: bool)
      modifies this
      ensures applications == if confirmed then Applications.Remove(old(applications), appId) else old(applications)
      ensures old(Applications.UniqueIds(applications)) ==> Applications.UniqueIds(applications)
      ensures studyPlan == old(studyPlan) && editingTaskId == old(editingTaskId)
      ensures newTask == old(newTask) && newApplication == old(newApplication)
    {
      if confirmed {
        if Applications.UniqueIds(applications) {
          Applications.RemoveKeepsUnique(applications, appId);
        }
        applications := Applications.Remove(applications, appId);
      }
    }

    /** Picking a date in an application's interview date field. */
    method ScheduleInterview(appId: string, date: string)
      modifies this
      ensures applications == Applications.ScheduleInterview(old(applications), appId, date)
      ensures old(Applications.UniqueIds(applications)) ==> Applications.UniqueIds(applications)
      ensures studyPlan == old(studyPlan) && editingTaskId == old(editingTaskId)
      ensures newTask == old(newTask) && newApplication == old(newApplication)
    {
      if Applications.UniqueIds(applications) {
        ScheduleInterviewKeepsUnique(applications, appId, date);
      }
      applications := Applications.ScheduleInterview(applications, appId, date);
    }
  }

  /**
   * Starting to edit a task and saving at once gives back the original study
   * plan when task ids are unique. With an empty id the edit never opens: the
   * edit id keeps the empty string, which is falsy, so saving changes nothing.
   */
  method StartEditThenSave(d: Dashboard, task: StudyTask)
    requires StudyPlan.UniqueIds(d.studyPlan) && task in d.studyPlan
    modifies d
    ensures d.studyPlan == old(d.studyPlan)
    ensures task.id != "" ==> d.editingTaskId == None && d.newTask == EmptyTaskDraft
    ensures task.id == "" ==> d.editingTaskId == Some("") && d.newTask == DraftOf(task)
  {
    d.StartEditTask(task);
    d.HandleEditTask();
    StudyPlan.StartEditThenSave(old(d.studyPlan), task);
  }
}
