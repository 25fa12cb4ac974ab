/**
 * The Django admin configuration: which jobs and applications a staff user
 * sees, who a new job is attributed to, and what staff may add or delete.
 */
module Admin {
  import opened Wrappers
  import opened Models
  import opened Database

  /** Whether a job was created by user `uid`. */
  function JobCreatedBy(uid: int): Job -> bool { (j: Job) => j.createdBy == uid }

  /** Whether an application is for a job created by user `uid`. */
  function ForJobCreatedBy(jobs: seq<Job>, uid: int): Application -> bool {
    (a: Application) => CreatedBy(jobs, a.job, uid)
  }

  /**
   * `JobAdmin.get_queryset`: a superuser sees every job, anyone else only
   * the jobs they created.
   */
  function JobQueryset(requester: User, jobs: seq<Job>): (r: seq<Job>)
    ensures requester.isSuperuser ==> r == jobs
    ensures !requester.isSuperuser ==> forall j :: j in r <==> j in jobs && j.createdBy == requester.id
  {
    if requester.isSuperuser then jobs else Filter(jobs, JobCreatedBy(requester.id))
  }

  /**
   * `ApplicationAdmin.get_queryset`: a superuser sees every application,
   * anyone else only the applications to jobs they created.
   */
  function ApplicationQueryset(requester: User, jobs: seq<Job>, apps: seq<Application>): (r: seq<Application>)
    ensures requester.isSuperuser ==> r == apps
    ensures !requester.isSuperuser ==> forall a :: a in r <==> a in apps && CreatedBy(jobs, a.job, requester.id)
  {
    if requester.isSuperuser then apps else Filter(apps, ForJobCreatedBy(jobs, requester.id))
  }

  /**
   * Every application a staff user sees is for a job that user also sees in
   * the job list.
   */
  lemma VisibleApplicationsHaveVisibleJobs(requester: User, jobs: seq<Job>, apps: seq<Application>, a: Application)
    requires forall b :: b in apps ==> FindJob(jobs, b.job).Some?
    requires a in ApplicationQueryset(requester, jobs, apps)
    ensures FindJob(JobQueryset(requester, jobs), a.job).Some?
  {
    if !requester.isSuperuser {
      KeptJobResolves(jobs, JobCreatedBy(requester.id), a.job);
    }
  }

  /**
   * `JobAdmin.save_model`: a new job is attributed to the staff user who
   * adds it and stored under a fresh id; an edited job is saved as given.
   */
  method SaveModel(db: Store, requester: User, job: Job, change: bool, now: int) returns (saved: Job)
    requires db.Valid() && requester.id in db.users
    requires change ==> job.createdBy in db.users && FindJob(db.jobs, job.id).Some?
    modifies db
    ensures db.Valid()
    ensures db.users == old(db.users) && db.applications == old(db.applications)
    ensures !change ==>
      && saved == job.(id := old(db.nextJobId), createdBy := requester.id, postedAt := now)
      && FindJob(old(db.jobs), saved.id).None?
      && db.jobs == old(db.jobs) + [saved]
    ensures change ==>
      && saved == job && |db.jobs| == |old(db.jobs)|
      && forall i :: 0 <= i < |db.jobs| ==> db.jobs[i] == if old(db.jobs)[i].id == job.id then job else old(db.jobs)[i]
  {
    if !change {
      saved := db.InsertJob(job.(createdBy := requester.id), now);
    } else {
      db.UpdateJob(job);
      saved := job;
    }
  }

  /** `ApplicationAdmin.job_company`: the company of the application's job. */
  function JobCompany(jobs: seq<Job>, a: Application): (r: string)
    requires FindJob(jobs, a.job).Some?
    ensures exists j :: j in jobs && j.id == a.job && r == j.company
  {
    var j := FindJob(jobs, a.job).value;
    assert j in jobs;
    j.company
  }

  const NoResume := "No resume"

  /**
   * `ApplicationAdmin.view_resume`: anchor markup carrying the resume's URL,
   * or the text "No resume". The string is not marked safe, so the change
   * list shows the markup as escaped text.
   */
  function ViewResume(a: Application): string {
    if HasFile(a.resume) then "<a href=\"" + a.resume.value.url + "\" target=\"_blank\">Download Resume</a>"
    else NoResume
  }

  /** The resume column holds anchor markup exactly when a resume was uploaded, and the markup carries its URL. */
  lemma {:induction false} ViewResumeLinksIff(a: Application)
    ensures ViewResume(a) != NoResume <==> HasFile(a.resume)
    ensures HasFile(a.resume) ==>
      var r, n := ViewResume(a), |a.resume.value.url|;
      r[9..9 + n] == a.resume.value.url
  {
    if HasFile(a.resume) {
      var r := ViewResume(a);
      assert r[0] == '<' && NoResume[0] == 'N';
    }
  }

  /** One line of the application change list: the columns of `list_display`, in order. */
  datatype ApplicationColumns = ApplicationColumns(
    applicant: string, job: string, company: string, status: string, appliedAt: int, resume: string)

  /**
   * `ApplicationAdmin.list_display`: a foreign key column shows the related
   * object's string form (a user's is its username), `status` shows its
   * label, and the two methods fill their own columns.
   */
  function ApplicationListRow(users: map<int, User>, jobs: seq<Job>, a: Application): ApplicationColumns
    requires a.applicant in users && FindJob(jobs, a.job).Some?
  {
    ApplicationColumns(
      users[a.applicant].username, JobStr(FindJob(jobs, a.job).value), JobCompany(jobs, a),
      StatusLabel(a.status), a.appliedAt, ViewResume(a))
  }

  /**
   * A change-list line reads as the application: the applicant and job
   * columns joined by " - " are the application's string form, the job
   * column is the title of the job with that id and the company column its
   * company, two lines show the same status label exactly when the
   * applications have the same status, and the resume column holds anchor
   * markup exactly when a resume was uploaded.
   */
  lemma {:induction false} ApplicationRowShowsApplication(
    users: map<int, User>, jobs: seq<Job>, a: Application, b: Application)
    requires a.applicant in users && FindJob(jobs, a.job).Some?
    requires b.applicant in users && FindJob(jobs, b.job).Some?
    ensures var r := ApplicationListRow(users, jobs, a);
      && r.applicant + " - " + r.job == ApplicationStr(users[a.applicant], FindJob(jobs, a.job).value)
      && (exists j :: j in jobs && j.id == a.job && r.job == j.title && r.company == j.company)
      && (r.status == ApplicationListRow(users, jobs, b).status <==> a.status == b.status)
      && (r.resume != NoResume <==> HasFile(a.resume))
  {
    var j := FindJob(jobs, a.job).value;
    assert j in jobs && j.id == a.job && JobCompany(jobs, a) == j.company;
    ViewResumeLinksIff(a);
  }

  /** `ApplicationAdmin.has_add_permission`: nobody adds applications from the admin. */
  function HasAddPermission(requester: User): (r: bool)
    ensures !r
  {
    false
  }

  /** `ApplicationAdmin.has_delete_permission`: only a superuser deletes applications. */
  function HasDeletePermission(requester: User): (r: bool)
    ensures r <==> requester.isSuperuser
  {
    requester.isSuperuser
  }

  /**
   * Deleting an application from the admin: refused unless the staff user
   * may delete, in which case exactly that application is removed.
   */
  method AdminDeleteApplication(db: Store, requester: User, id: int) returns (deleted: bool)
    requires db.Valid()
    modifies db
    ensures db.Valid()
    ensures deleted <==> requester.isSuperuser
    ensures db.users == old(db.users) && db.jobs == old(db.jobs)
    ensures !deleted ==> db.applications == old(db.applications)
    ensures deleted ==> db.applications == Filter(old(db.applications), ApplicationNotWithId(id))
  {
    if !HasDeletePermission(requester) {
      return false;
    }
    db.DeleteApplication(id);
    deleted := true;
  }
}
