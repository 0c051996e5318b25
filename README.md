# SDE-Prep dashboard: study plan, job applications and question bank

This project models the state logic of the SDE-Prep interview-preparation dashboard in Dafny.

- **Study plan.** The `Dashboard` component keeps an ordered list of study tasks and an ordered list of job applications. It also keeps a task draft, an application draft and the id of the task being edited. Each event handler replaces a list with a new one built by `map`, `filter` or spread, and some handlers reset a draft.
- **Application status.** The status button of an application row moves its status one step around the cycle applied → interview → offer → rejected → applied.
- **Mock interviews.** The `MockInterviews` component filters a fixed question bank by question type and by difficulty. Each selection can be the wildcard "all", and the two are combined with AND. It also lists the scheduled and the completed interviews of a fixed interview catalog.

The project has six modules:

- `ArrayOps` (`array_ops.dfy`). JavaScript's `map`, `filter` and `indexOf` as recursive functions on sequences. It also defines the subsequence relation ("same elements, some dropped, order kept") and proves the facts the list updates rely on.
- `StudyPlan` (`study_plan.dfy`). The task entity, the task draft, and the new study plan each task handler computes.
- `Applications` (`applications.dfy`). The application entity, the status cycle, and the new list each application handler computes. The status button's inline expression is lifted into `NextStatus`.
- `DashboardComponent` (`dashboard.dfy`). The class `Dashboard`. Its fields are the component's state and its methods are the handlers. Each method's `ensures` gives the new state in terms of the functions above, says which fields stay the same, and says that unique ids stay unique.
- `MockInterviews` (`mock_interviews.dfy`). The interview and question entities, both shipped catalogs with all their data, the two status lists, and the question filter.
- `Optional` (`optional.dfy`). An `Option` type for the optional fields and the nullable edit id.

Inputs the component gets from outside are parameters of the model:

- The id a new task or application gets: the source uses `Date.now().toString()`.
- The answer to the `window.confirm` prompt before a delete: a `confirmed` flag.

The model follows the code, which differs from the described design of the tracker in these ways:

- No handler raises a validation or not-found error. An id that no element has leaves the list unchanged, because `map` and `filter` change nothing else. The required-field checks are only HTML `required` attributes on the form inputs.
- `updateApplicationStatus` accepts any status, but the component passes it only the next status in the cycle, from the status button. Scheduling an interview does not check the date.
- Nothing makes ids unique. Every lemma that needs unique ids says so in its `requires`. `StudyPlan.StartEditThenSaveWithDuplicateIds` shows what goes wrong with duplicates.
- The edit guard `if (editingTaskId)` uses JavaScript truthiness, and so does the condition that shows the edit form. With an empty task id the edit never opens: `editingTaskId` keeps the empty string, and the component treats that as no edit in progress. The ids the source creates are never empty.
- Closing the edit form ends the edit but leaves the draft filled with the edited task's text, so the next add form starts from that text.

## Model

| member | source | states |
|---|---|---|
| ArrayOps.Map | src/components/Dashboard/Dashboard.tsx:52-54 | `map` keeps the length, and element i of the result is the callback applied to element i |
| ArrayOps.IndexOf | src/components/Dashboard/Dashboard.tsx:587 | `indexOf` gives -1 exactly when the value is absent; otherwise it gives a position that holds the value, with no earlier occurrence |
| ArrayOps.Filter | src/components/Dashboard/Dashboard.tsx:96 | `filter` returns at most as many elements as its input; what it keeps is stated by FilterMembership, FilterCount and FilterIsSubsequence |
| ArrayOps.FilterMembership | src/components/Dashboard/Dashboard.tsx:96 | every element `filter` keeps comes from the input and passes the test; every input element that passes is kept |
| ArrayOps.FilterCount | src/components/Dashboard/Dashboard.tsx:96 | `filter` keeps every copy of an element that passes the test and no copy of one that fails |
| ArrayOps.FilterCounts | src/components/Dashboard/Dashboard.tsx:96 | FilterCount for every element at once |
| ArrayOps.FilterIsSubsequence | src/components/Dashboard/MockInterviews.tsx:180-188 | `filter` keeps the surviving elements in their original order |
| ArrayOps.SubsequenceLength | src/components/Dashboard/MockInterviews.tsx:180 | a subsequence is never longer than its source |
| ArrayOps.FilterMonotone | src/components/Dashboard/MockInterviews.tsx:180-188 | filtering by a weaker test keeps, in order, everything a stronger test keeps |
| ArrayOps.FilterKeepsAll | src/components/Dashboard/Dashboard.tsx:96 | a filter that every element passes returns the list unchanged |
| ArrayOps.FilterStep | src/components/Dashboard/MockInterviews.tsx:180 | filtering a suffix decides its first element, then filters the rest |
| ArrayOps.FilterPreservesDistinct | src/components/Dashboard/Dashboard.tsx:96 | a filtered list with distinct keys still has distinct keys |
| StudyPlan.Toggle | src/components/Dashboard/Dashboard.tsx:51-55 | length and order are kept; `completed` flips exactly on tasks with the id; every other field and task is unchanged |
| StudyPlan.ToggleTwice | src/components/Dashboard/Dashboard.tsx:51-55 | toggling the same id twice gives back the original list |
| StudyPlan.ToggleAbsent | src/components/Dashboard/Dashboard.tsx:51-55 | toggling an id that no task has leaves the list unchanged |
| StudyPlan.AddTask | src/components/Dashboard/Dashboard.tsx:57-64 | one task is appended, with the supplied id, the draft's title, description and due date, and `completed` false; the old list is an unchanged prefix |
| StudyPlan.AddTaskKeepsUnique | src/components/Dashboard/Dashboard.tsx:57-64 | adding with an id no task has keeps ids unique |
| StudyPlan.Edit | src/components/Dashboard/Dashboard.tsx:72-79 | on tasks with the edited id, each non-empty draft field replaces the old value and an empty one keeps it; `id` and `completed` never change; other tasks stay unchanged; the length is kept |
| StudyPlan.EditWithEmptyDraft | src/components/Dashboard/Dashboard.tsx:72-79 | saving an all-empty draft leaves the list unchanged |
| StudyPlan.StartEditThenSave | src/components/Dashboard/Dashboard.tsx:69-92 | with unique ids, saving the draft that starting an edit filled in gives back the original list |
| StudyPlan.StartEditThenSaveWithDuplicateIds | src/components/Dashboard/Dashboard.tsx:72-79 | with two tasks sharing an id, the same round trip overwrites the second task's title and description with the first's |
| StudyPlan.Remove | src/components/Dashboard/Dashboard.tsx:96 | exactly the tasks with the id disappear; every other task keeps all its copies, in their order |
| StudyPlan.RemoveAbsent | src/components/Dashboard/Dashboard.tsx:94-98 | deleting an id that no task has leaves the list unchanged |
| StudyPlan.RemovePresent | src/components/Dashboard/Dashboard.tsx:94-98 | with unique ids, deleting a present id removes exactly one task |
| StudyPlan.ToggleKeepsUnique | src/components/Dashboard/Dashboard.tsx:51-55 | a toggle keeps ids unique |
| StudyPlan.EditKeepsUnique | src/components/Dashboard/Dashboard.tsx:69-83 | an edit keeps ids unique |
| StudyPlan.RemoveKeepsUnique | src/components/Dashboard/Dashboard.tsx:94-98 | a delete keeps ids unique |
| Applications.NextStatus | src/components/Dashboard/Dashboard.tsx:585-589 | the next status differs from the current one, and its position in the options is the current position plus one, modulo 4 |
| Applications.StatusPosition | src/components/Dashboard/Dashboard.tsx:586-587 | applied, interview, offer and rejected stand at positions 0 to 3 of the options |
| Applications.NextStatusCycle | src/components/Dashboard/Dashboard.tsx:585-589 | applied → interview → offer → rejected → applied |
| Applications.FourAdvancesRestore | src/components/Dashboard/Dashboard.tsx:585-589 | four advances return any status to itself |
| Applications.AddApplication | src/components/Dashboard/Dashboard.tsx:100-107 | one application is appended, with the supplied id, the draft's company and role, status applied whatever the draft holds, and no interview date; the old list is an unchanged prefix |
| Applications.AddApplicationKeepsUnique | src/components/Dashboard/Dashboard.tsx:100-107 | adding with an id no application has keeps ids unique |
| Applications.UpdateStatus | src/components/Dashboard/Dashboard.tsx:112-116 | on applications with the id only the status changes and the interview date is kept; other applications stay unchanged; the length is kept |
| Applications.UpdateStatusAbsent | src/components/Dashboard/Dashboard.tsx:112-116 | setting the status of an absent id leaves the list unchanged |
| Applications.UpdateStatusLastWins | src/components/Dashboard/Dashboard.tsx:112-116 | of two status updates to one id, only the later one shows |
| Applications.CycleStatus | src/components/Dashboard/Dashboard.tsx:585-589 | every application with the pressed row's id gets the status after the pressed row's status, with its other fields kept; applications with other ids stay unchanged |
| Applications.FourCyclesRestore | src/components/Dashboard/Dashboard.tsx:585-589 | with unique ids, pressing the same row's button four times gives back the original list |
| Applications.ScheduleInterview | src/components/Dashboard/Dashboard.tsx:124-128 | on applications with the id, the status becomes interview whatever it was and the date is set, with no check; others stay unchanged |
| Applications.ScheduleInterviewAbsent | src/components/Dashboard/Dashboard.tsx:124-128 | scheduling for an absent id leaves the list unchanged |
| Applications.CycleKeepsInterviewDate | src/components/Dashboard/Dashboard.tsx:112-128 | after scheduling, the next status press moves to offer and keeps the interview date |
| Applications.Remove | src/components/Dashboard/Dashboard.tsx:120 | exactly the applications with the id disappear; every other application keeps all its copies, in their order |
| Applications.RemoveAbsent | src/components/Dashboard/Dashboard.tsx:118-122 | deleting an absent id leaves the list unchanged |
| Applications.UpdateStatusKeepsUnique | src/components/Dashboard/Dashboard.tsx:112-116 | a status update keeps ids unique |
| Applications.ScheduleInterviewKeepsUnique | src/components/Dashboard/Dashboard.tsx:124-128 | scheduling an interview keeps ids unique |
| Applications.RemoveKeepsUnique | src/components/Dashboard/Dashboard.tsx:118-122 | a delete keeps ids unique |
| DashboardComponent.Dashboard.constructor | src/components/Dashboard/Dashboard.tsx:10-48 | the initial tasks and applications, empty drafts, no task being edited |
| DashboardComponent.Dashboard.ToggleTaskCompletion | src/components/Dashboard/Dashboard.tsx:51-55 | the study plan becomes `Toggle` of the old one; nothing else changes |
| DashboardComponent.Dashboard.HandleAddTask | src/components/Dashboard/Dashboard.tsx:57-67 | the study plan becomes `AddTask` of the old one and the task draft is reset to empty |
| DashboardComponent.Dashboard.HandleEditTask | src/components/Dashboard/Dashboard.tsx:69-83 | with a truthy edit id: `Edit` is applied, the edit id is cleared and the draft is reset; otherwise nothing changes |
| DashboardComponent.Dashboard.StartEditTask | src/components/Dashboard/Dashboard.tsx:85-92 | the edit id becomes the task's id and the draft becomes its three text fields; the lists stay unchanged |
| DashboardComponent.Dashboard.CancelEdit | src/components/Dashboard/Dashboard.tsx:301 | closing the edit form clears the edit id and leaves the draft and both lists unchanged |
| DashboardComponent.Dashboard.DeleteTask | src/components/Dashboard/Dashboard.tsx:94-98 | when confirmed, the study plan becomes `Remove` of the old one; otherwise it is unchanged |
| DashboardComponent.Dashboard.HandleAddApplication | src/components/Dashboard/Dashboard.tsx:100-110 | the applications become `AddApplication` of the old ones and the application draft is reset |
| DashboardComponent.Dashboard.UpdateApplicationStatus | src/components/Dashboard/Dashboard.tsx:112-116 | the applications become `UpdateStatus` of the old ones |
| DashboardComponent.Dashboard.CycleApplicationStatus | src/components/Dashboard/Dashboard.tsx:585-590 | the applications become `CycleStatus` of the old ones for the pressed row |
| DashboardComponent.Dashboard.DeleteApplication | src/components/Dashboard/Dashboard.tsx:118-122 | when confirmed, the applications become `Remove` of the old ones; otherwise they are unchanged |
| DashboardComponent.Dashboard.ScheduleInterview | src/components/Dashboard/Dashboard.tsx:124-128 | the applications become `ScheduleInterview` of the old ones |
| DashboardComponent.StartEditThenSave | src/components/Dashboard/Dashboard.tsx:69-92 | on the component, starting an edit and saving at once leaves the study plan unchanged; with a non-empty id the edit ends and the draft is reset, with an empty id the edit id keeps the empty string |
| MockInterviews.UpcomingInterviews | src/components/Dashboard/MockInterviews.tsx:177 | holds every scheduled interview of the catalog, with all its copies, and nothing else, in catalog order |
| MockInterviews.CompletedInterviews | src/components/Dashboard/MockInterviews.tsx:178 | holds every completed interview of the catalog, with all its copies, and nothing else, in catalog order |
| MockInterviews.UpcomingCompletedDisjoint | src/components/Dashboard/MockInterviews.tsx:177-178 | no interview is in both lists |
| MockInterviews.ScheduledOfShipped | src/components/Dashboard/MockInterviews.tsx:26-57 | the scheduled-status filter keeps only interview 1 of the shipped catalog |
| MockInterviews.CompletedOfShipped | src/components/Dashboard/MockInterviews.tsx:26-57 | the completed-status filter keeps only interview 3 of the shipped catalog |
| MockInterviews.ShippedInterviewLists | src/components/Dashboard/MockInterviews.tsx:26-57 | on the shipped catalog, interview 1 is the only upcoming one and interview 3 the only completed one |
| MockInterviews.FilterQuestions | src/components/Dashboard/MockInterviews.tsx:180-188 | a question is shown exactly when each selection is "all" or matches it, with all its copies; the result is in catalog order and no longer than the catalog |
| MockInterviews.FilterAllAll | src/components/Dashboard/MockInterviews.tsx:181-187 | with both selections at "all", the whole catalog is shown unchanged |
| MockInterviews.TypeFilterMonotone | src/components/Dashboard/MockInterviews.tsx:181-183 | choosing one type shows an in-order part of what "all types" shows |
| MockInterviews.DifficultyFilterMonotone | src/components/Dashboard/MockInterviews.tsx:184-186 | choosing one difficulty shows an in-order part of what "all difficulties" shows |
| MockInterviews.ThreeOfFifteen | src/components/Dashboard/MockInterviews.tsx:180 | a filter over 15 questions that passes only the 3rd, 11th and 13th returns those three, in order |
| MockInterviews.TechnicalHardSelected | src/components/Dashboard/MockInterviews.tsx:74-80 | the shipped bank has 15 questions; its 3rd, 11th and 13th are technical and hard |
| MockInterviews.TechnicalHardRejectedFirst | src/components/Dashboard/MockInterviews.tsx:60-94 | shipped questions 1, 2 and 4 are not both technical and hard |
| MockInterviews.TechnicalHardRejectedSecond | src/components/Dashboard/MockInterviews.tsx:88-108 | shipped questions 5, 6 and 7 are not both technical and hard |
| MockInterviews.TechnicalHardRejectedHigh | src/components/Dashboard/MockInterviews.tsx:109-164 | shipped questions 8, 9, 10, 12, 14 and 15 are not both technical and hard |
| MockInterviews.ShippedTechnicalHard | src/components/Dashboard/MockInterviews.tsx:59-188 | on the shipped bank, technical and hard selects exactly questions 3, 11 and 13, in that order |

## Left out

- Rendering, CSS classes, tabs, modals and their visibility flags are left out: they are presentation only.
- The form `onChange` handlers that copy typed text into a draft are left out. The draft fields are public fields of `Dashboard`, and the model starts from whatever they hold.
- The HTML `required` attributes are left out: they are checks the browser does before submitting a form, not logic in the handlers.
- Authentication, logout and navigation are left out: they belong to external libraries.
- `window.confirm` and `alert` are left out as browser effects. The user's answer to the confirmation prompt is the `confirmed` parameter.
- `Date.now()` is left out as a clock read. The new id is a parameter of the add handlers, and no freshness is required.
- The progress-bar percentage, the static progress object, date and time locale formatting and star ratings are left out: they are display arithmetic or constant display data.
- `handleScheduleInterview` in MockInterviews is left out: it only shows an alert and closes a modal.
- React's asynchronous, batched state updates and stale closures are left out. Each handler is modelled as reading the current state and replacing it at once.
- The `StudyTask` and `JobApplication` types are imported from `src/types`, which is not part of this model. Their fields come from the initial data and from the handlers.
