/**
 * The job-application pipeline of the dashboard: an ordered list of
 * applications, the four-step status cycle, and the new lists its handlers
 * compute with `map`, `filter` and spread.
 */
module Applications {
  import opened Optional
  import opened ArrayOps

  datatype Status = Applied | Interview | Offer | Rejected

  datatype JobApplication = JobApplication(
    id: string, company: string, role: string, status: Status, nextInterview: Option<string>)

  /**
   * The application form's draft. Its status is an untyped string field that
   * adding an application ignores.
   */
  datatype ApplicationDraft = ApplicationDraft(company: string, role: string, status: string)

  const EmptyApplicationDraft := ApplicationDraft("", "", "applied")

  /** The two applications the dashboard starts with. */
  const InitialApplications: seq<JobApplication> := [
    JobApplication("1", "Tech Corp", "SDE I", Interview, Some("2025-03-21")),
    JobApplication("2", "Innovation Labs", "Junior Developer", Applied, None)
  ]

  /** The order in which the status button cycles. */
  const StatusOptions: seq<Status> := [Applied, Interview, Offer, Rejected]

  /**
   * The status the status button moves to: the option after the current one,
   * wrapping from the last back to the first.
   */
  function NextStatus(s: Status): (r: Status)
    ensures r != s
    ensures IndexOf(StatusOptions, r) == (IndexOf(StatusOptions, s) + 1) % |StatusOptions|
  {
    StatusOptions[(IndexOf(StatusOptions, s) + 1) % |StatusOptions|]
  }

  /** Where each status stands in the cycle. */
  lemma StatusPosition(s: Status)
    ensures IndexOf(StatusOptions, s) == match s
      case Applied => 0
      case Interview => 1
      case Offer => 2
      case Rejected => 3
  {
    var k := match s
      case Applied => 0
      case Interview => 1
      case Offer => 2
      case Rejected => 3;
    assert StatusOptions[k] == s;
    var r := IndexOf(StatusOptions, s);
    assert 0 <= r < 4 && StatusOptions[r] == s;
  }

  /** The cycle step by step: applied, interview, offer, rejected, then applied again. */
  lemma NextStatusCycle()
    ensures NextStatus(Applied) == Interview
    ensures NextStatus(Interview) == Offer
    ensures NextStatus(Offer) == Rejected
    ensures NextStatus(Rejected) == Applied
  {
    StatusPosition(Applied);
    StatusPosition(Interview);
    StatusPosition(Offer);
    StatusPosition(Rejected);
  }

  /** Four presses of the status button return any status to itself. */
  lemma FourAdvancesRestore(s: Status)
    ensures NextStatus(NextStatus(NextStatus(NextStatus(s)))) == s
  {
    NextStatusCycle();
  }

  function AppId(a: JobApplication): string { a.id }

  /** No two applications share an id. The ids come from the wall clock; nothing enforces this. */
  ghost predicate UniqueIds(apps: seq<JobApplication>)
  {
    DistinctBy(AppId, apps)
  }

  ghost predicate HasId(apps: seq<JobApplication>, id: string)
  {
    exists i :: 0 <= i < |apps| && apps[i].id == id
  }

  /**
   * The list after the add form is submitted: one application at the end, with
   * the draft's company and role, status applied whatever the draft says, and
   * no interview date.
   */
  function AddApplication(apps: seq<JobApplication>, id: string, draft: ApplicationDraft): (r: seq<JobApplication>)
    ensures |r| == |apps| + 1
    ensures r[..|apps|] == apps
    ensures r[|apps|].id == id && r[|apps|].company == draft.company && r[|apps|].role == draft.role
    ensures r[|apps|].status == Applied && r[|apps|].nextInterview == None
  {
    apps + [JobApplication(id, draft.company, draft.role, Applied, None)]
  }

  /** The list after the status of the applications with id `id` is set to `status`. */
  function UpdateStatus(apps: seq<JobApplication>, id: string, status: Status): (r: seq<JobApplication>)
    ensures |r| == |apps|
    ensures forall i :: 0 <= i < |r| && apps[i].id != id ==> r[i] == apps[i]
    ensures forall i :: 0 <= i < |r| && apps[i].id == id ==>
      && r[i].status == status
      && r[i].id == apps[i].id && r[i].company == apps[i].company && r[i].role == apps[i].role
      && r[i].nextInterview == apps[i].nextInterview
  {
    Map((a: JobApplication) => if a.id == id then a.(status := status) else a, apps)
  }

  /**
   * The list after the status button of the row showing `app` is pressed: every
   * application with `app`'s id gets the status that follows `app`'s.
   */
  function CycleStatus(apps: seq<JobApplication>, app: JobApplication): (r: seq<JobApplication>)
    ensures |r| == |apps|
    ensures forall i :: 0 <= i < |r| && apps[i].id != app.id ==> r[i] == apps[i]
    ensures forall i :: 0 <= i < |r| && apps[i].id == app.id ==> r[i] == apps[i].(status := NextStatus(app.status))
  {
    UpdateStatus(apps, app.id, NextStatus(app.status))
  }

  /**
   * The list after a date is picked for the applications with id `id`: status
   * interview whatever it was, and that date as the next interview, with no
   * check on the date.
   */
  function ScheduleInterview(apps: seq<JobApplication>, id: string, date: string): (r: seq<JobApplication>)
    ensures |r| == |apps|
    ensures forall i :: 0 <= i < |r| && apps[i].id != id ==> r[i] == apps[i]
    ensures forall i :: 0 <= i < |r| && apps[i].id == id ==>
      && r[i].status == Interview && r[i].nextInterview == Some(date)
      && r[i].id == apps[i].id && r[i].company == apps[i].company && r[i].role == apps[i].role
  {
    Map((a: JobApplication) => if a.id == id then a.(status := Interview, nextInterview := Some(date)) else a, apps)
  }

  /** The list after a confirmed delete: every application with id `id` is gone, the rest keep their order. */
  function Remove(apps: seq<JobApplication>, id: string): (r: seq<JobApplication>)
    ensures forall a :: a in r <==> a in apps && a.id != id
    ensures forall a :: multiset(r)[a] == if a.id != id then multiset(apps)[a] else 0
    ensures IsSubsequence(r, apps)
  {
    FilterIsSubsequence((a: JobApplication) => a.id != id, apps);
    FilterCounts((a: JobApplication) => a.id != id, apps);
    FilterMembership((a: JobApplication) => a.id != id, apps);
    Filter((a: JobApplication) => a.id != id, apps)
  }

  /** Setting the status of an id no application has leaves the list as it was. */
  lemma UpdateStatusAbsent(apps: seq<JobApplication>, id: string, status: Status)
    requires !HasId(apps, id)
    ensures UpdateStatus(apps, id, status) == apps
  {
  }

  /** Of two status updates to the same id only the later one shows. */
  lemma UpdateStatusLastWins(apps: seq<JobApplication>, id: string, s1: Status, s2: Status)
    ensures UpdateStatus(UpdateStatus(apps, id, s1), id, s2) == UpdateStatus(apps, id, s2)
  {
  }

  /**
   * Pressing the status button of the same row four times, each time on the
   * row as it is then shown, gives back the original list when ids are unique.
   */
  lemma FourCyclesRestore(apps: seq<JobApplication>, k: nat)
    requires UniqueIds(apps)
    requires k < |apps|
    ensures
      var c1 := CycleStatus(apps, apps[k]);
      var c2 := CycleStatus(c1, c1[k]);
      var c3 := CycleStatus(c2, c2[k]);
      var c4 := CycleStatus(c3, c3[k]);
      c4 == apps
  {
    var c1 := CycleStatus(apps, apps[k]);
    var c2 := CycleStatus(c1, c1[k]);
    var c3 := CycleStatus(c2, c2[k]);
    var c4 := CycleStatus(c3, c3[k]);
    forall i | 0 <= i < |apps| && i != k ensures apps[i].id != apps[k].id {
      if i < k {
        assert AppId(apps[i]) != AppId(apps[k]);
      } else {
        assert AppId(apps[k]) != AppId(apps[i]);
      }
    }
    FourAdvancesRestore(apps[k].status);
    assert forall i :: 0 <= i < |apps| ==> c4[i] == apps[i];
  }

  /** Moving the status on from interview does not clear the scheduled date. */
  lemma CycleKeepsInterviewDate(apps: seq<JobApplication>, k: nat, date: string)
    requires k < |apps|
    ensures
      var s := ScheduleInterview(apps, apps[k].id, date);
      var c := CycleStatus(s, s[k]);
      c[k].status == Offer && c[k].nextInterview == Some(date)
  {
    NextStatusCycle();
  }

  /** Scheduling an interview for an id no application has leaves the list as it was. */
  lemma ScheduleInterviewAbsent(apps: seq<JobApplication>, id: string, date: string)
    requires !HasId(apps, id)
    ensures ScheduleInterview(apps, id, date) == apps
  {
  }

  /** Deleting an id no application has leaves the list as it was. */
  lemma RemoveAbsent(apps: seq<JobApplication>, id: string)
    requires !HasId(apps, id)
    ensures Remove(apps, id) == apps
  {
    FilterKeepsAll((a: JobApplication) => a.id != id, apps);
  }

  /** Adding with an id no application has keeps the ids unique. */
  lemma AddApplicationKeepsUnique(apps: seq<JobApplication>, id: string, draft: ApplicationDraft)
    requires UniqueIds(apps)
    requires !HasId(apps, id)
    ensures UniqueIds(AddApplication(apps, id, draft))
  {
  }

  /** A status update never makes two applications share an id. */
  lemma UpdateStatusKeepsUnique(apps: seq<JobApplication>, id: string, status: Status)
    requires UniqueIds(apps)
    ensures UniqueIds(UpdateStatus(apps, id, status))
  {
    var u := UpdateStatus(apps, id, status);
    assert forall i :: 0 <= i < |apps| ==> AppId(u[i]) == AppId(apps[i]);
  }

  /** Scheduling an interview never makes two applications share an id. */
  lemma ScheduleInterviewKeepsUnique(apps: seq<JobApplication>, id: string, date: string)
    requires UniqueIds(apps)
    ensures UniqueIds(ScheduleInterview(apps, id, date))
  {
    var s := ScheduleInterview(apps, id, date);
    assert forall i :: 0 <= i < |apps| ==> AppId(s[i]) == AppId(apps[i]);
  }

  /** A delete never makes two applications share an id. */
  lemma RemoveKeepsUnique(apps: seq<JobApplication>, id: string)
    requires UniqueIds(apps)
    ensures UniqueIds(Remove(apps, id))
  {
    FilterPreservesDistinct(AppId, (a: JobApplication) => a.id != id, apps);
  }
}
