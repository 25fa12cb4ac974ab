/**
 * The relational store behind the Django models: users, jobs and
 * applications as records, the foreign keys between them and the
 * `on_delete=CASCADE` rules that keep those keys resolvable.
 */
module Database {
  import opened Wrappers
  import opened Models

  /** A queryset `.filter(...)`: the elements that satisfy `p`, in their order. */
  function Filter<T(!new)>(s: seq<T>, p: T -> bool): (r: seq<T>)
    ensures |r| <= |s|
    ensures forall x :: x in r <==> x in s && p(x)
    decreases |s|
  {
    if s == [] then [] else (if p(s[0]) then [s[0]] else []) + Filter(s[1..], p)
  }

  /** `Job.objects.get(id=id)`: the job with that id, or `None` for `DoesNotExist`. */
  function FindJob(jobs: seq<Job>, id: int): (r: Option<Job>)
    ensures r.Some? ==> r.value in jobs && r.value.id == id
    ensures r.None? ==> forall j :: j in jobs ==> j.id != id
    decreases |jobs|
  {
    if jobs == [] then None else if jobs[0].id == id then Some(jobs[0]) else FindJob(jobs[1..], id)
  }

  /** The (applicant, job) pair an application is for. */
  function Pair(a: Application): (int, int) { (a.applicant, a.job) }

  /** `Application.objects.filter(applicant=applicant, job=job).exists()`. */
  predicate HasApplication(apps: seq<Application>, applicant: int, job: int) {
    exists a :: a in apps && Pair(a) == (applicant, job)
  }

  /** No two elements of `s` share a key. */
  predicate DistinctBy<T, K(==)>(s: seq<T>, key: T -> K) {
    forall i, j :: 0 <= i < j < |s| ==> key(s[i]) != key(s[j])
  }

  function JobId(j: Job): int { j.id }
  function ApplicationId(a: Application): int { a.id }

  /** No (applicant, job) pair has two applications. The schema itself does not demand this. */
  predicate NoDuplicatePairs(apps: seq<Application>) { DistinctBy(apps, Pair) }

  /** Whether the job with id `jobId` was created by user `uid`. */
  predicate CreatedBy(jobs: seq<Job>, jobId: int, uid: int) {
    var j := FindJob(jobs, jobId); j.Some? && j.value.createdBy == uid
  }

  /** Every user is stored under its own id. */
  predicate UsersKeyed(users: map<int, User>) { forall id :: id in users ==> users[id].id == id }

  /** Every job's creator exists. */
  predicate JobOwnersExist(users: map<int, User>, jobs: seq<Job>) {
    forall i :: 0 <= i < |jobs| ==> jobs[i].createdBy in users
  }

  /** Every application's applicant and job exist. */
  predicate ApplicationRefsResolve(users: map<int, User>, jobs: seq<Job>, apps: seq<Application>) {
    forall i :: 0 <= i < |apps| ==> apps[i].applicant in users && FindJob(jobs, apps[i].job).Some?
  }

  /** Every record is stored under its own distinct id and every foreign key resolves. */
  predicate Consistent(users: map<int, User>, jobs: seq<Job>, apps: seq<Application>) {
    && UsersKeyed(users)
    && DistinctBy(jobs, JobId)
    && JobOwnersExist(users, jobs)
    && DistinctBy(apps, ApplicationId)
    && ApplicationRefsResolve(users, jobs, apps)
  }

  /** The applications that survive deleting user `uid`: neither theirs nor to a job of theirs. */
  function SurvivesUserDeletion(jobs: seq<Job>, uid: int): Application -> bool {
    (a: Application) => a.applicant != uid && !CreatedBy(jobs, a.job, uid)
  }

  /** Filtering a list whose keys are distinct leaves the keys distinct. */
  lemma {:induction false} FilterKeepsDistinct<T(!new), K>(s: seq<T>, key: T -> K, p: T -> bool)
    requires DistinctBy(s, key)
    ensures DistinctBy(Filter(s, p), key)
    decreases |s|
  {
    if s != [] {
      var tail := s[1..];
      assert DistinctBy(tail, key) by {
        forall i, j | 0 <= i < j < |tail| ensures key(tail[i]) != key(tail[j]) {
          assert tail[i] == s[i + 1] && tail[j] == s[j + 1];
        }
      }
      FilterKeepsDistinct(tail, key, p);
      var rest := Filter(tail, p);
      if p(s[0]) {
        var r := [s[0]] + rest;
        assert r == Filter(s, p);
        forall i, j | 0 <= i < j < |r| ensures key(r[i]) != key(r[j]) {
          if i == 0 {
            assert r[j] == rest[j - 1] && r[j] in tail;
            var k :| 0 <= k < |tail| && tail[k] == r[j];
            assert s[k + 1] == r[j];
          } else {
            assert r[i] == rest[i - 1] && r[j] == rest[j - 1];
          }
        }
      } else {
        assert Filter(s, p) == rest;
      }
    }
  }

  /** Keeping every job an application refers to keeps that reference resolvable. */
  lemma KeptJobResolves(jobs: seq<Job>, p: Job -> bool, jobId: int)
    requires FindJob(jobs, jobId).Some? && p(FindJob(jobs, jobId).value)
    ensures FindJob(Filter(jobs, p), jobId).Some?
  {
    assert FindJob(jobs, jobId).value in Filter(jobs, p);
  }

  function JobNotWithId(id: int): Job -> bool { (j: Job) => j.id != id }
  function JobNotCreatedBy(uid: int): Job -> bool { (j: Job) => j.createdBy != uid }
  function ApplicationNotForJob(id: int): Application -> bool { (a: Application) => a.job != id }
  function ApplicationNotWithId(id: int): Application -> bool { (a: Application) => a.id != id }

  /** Every key is positive and below `bound`. */
  predicate KeysBelow<T>(s: seq<T>, key: T -> int, bound: int) {
    forall i :: 0 <= i < |s| ==> 0 < key(s[i]) < bound
  }

  /** Filtering keeps every key below a bound that held for all elements. */
  lemma FilterKeepsBelow<T(!new)>(s: seq<T>, key: T -> int, p: T -> bool, bound: int)
    requires KeysBelow(s, key, bound)
    ensures KeysBelow(Filter(s, p), key, bound)
  {
    var r := Filter(s, p);
    forall i | 0 <= i < |r| ensures 0 < key(r[i]) < bound {
      assert r[i] in s;
    }
  }

  /** Deleting a job and, by cascade, its applications leaves the records consistent. */
  lemma JobDeletionKeepsConsistent(users: map<int, User>, jobs: seq<Job>, apps: seq<Application>, id: int)
    requires Consistent(users, jobs, apps)
    ensures Consistent(users, Filter(jobs, JobNotWithId(id)), Filter(apps, ApplicationNotForJob(id)))
  {
    var jobs', apps' := Filter(jobs, JobNotWithId(id)), Filter(apps, ApplicationNotForJob(id));
    FilterKeepsDistinct(jobs, JobId, JobNotWithId(id));
    FilterKeepsDistinct(apps, ApplicationId, ApplicationNotForJob(id));
    forall i | 0 <= i < |jobs'| ensures jobs'[i].createdBy in users {
      assert jobs'[i] in jobs;
    }
    forall i | 0 <= i < |apps'| ensures apps'[i].applicant in users && FindJob(jobs', apps'[i].job).Some? {
      assert apps'[i] in apps;
      KeptJobResolves(jobs, JobNotWithId(id), apps'[i].job);
    }
  }

  /** Deleting one application leaves the records consistent. */
  lemma ApplicationDeletionKeepsConsistent(users: map<int, User>, jobs: seq<Job>, apps: seq<Application>, id: int)
    requires Consistent(users, jobs, apps)
    ensures Consistent(users, jobs, Filter(apps, ApplicationNotWithId(id)))
  {
    var apps' := Filter(apps, ApplicationNotWithId(id));
    FilterKeepsDistinct(apps, ApplicationId, ApplicationNotWithId(id));
    forall i | 0 <= i < |apps'| ensures apps'[i].applicant in users && FindJob(jobs, apps'[i].job).Some? {
      assert apps'[i] in apps;
      var k :| 0 <= k < |apps| && apps[k] == apps'[i];
    }
  }

  /** Deleting a user and, by cascade, their jobs and the applications that refer to either leaves the records consistent. */
  lemma UserDeletionKeepsConsistent(users: map<int, User>, jobs: seq<Job>, apps: seq<Application>, id: int)
    requires Consistent(users, jobs, apps)
    ensures Consistent(users - {id}, Filter(jobs, JobNotCreatedBy(id)), Filter(apps, SurvivesUserDeletion(jobs, id)))
  {
    var users', jobs', apps' := users - {id}, Filter(jobs, JobNotCreatedBy(id)), Filter(apps, SurvivesUserDeletion(jobs, id));
    FilterKeepsDistinct(jobs, JobId, JobNotCreatedBy(id));
    FilterKeepsDistinct(apps, ApplicationId, SurvivesUserDeletion(jobs, id));
    forall i | 0 <= i < |jobs'| ensures jobs'[i].createdBy in users' {
      assert jobs'[i] in jobs;
    }
    forall i | 0 <= i < |apps'| ensures apps'[i].applicant in users' && FindJob(jobs', apps'[i].job).Some? {
      assert apps'[i] in apps && SurvivesUserDeletion(jobs, id)(apps'[i]);
      KeptJobResolves(jobs, JobNotCreatedBy(id), apps'[i].job);
    }
  }

  /** The records are consistent and every id is positive and below its table's next key. */
  predicate StoreInvariant(users: map<int, User>, jobs: seq<Job>, apps: seq<Application>,
                           nextUser: int, nextJob: int, nextApp: int) {
    && Consistent(users, jobs, apps)
    && 0 < nextUser && 0 < nextJob && 0 < nextApp
    && (forall id :: id in users ==> 0 < id < nextUser)
    && KeysBelow(jobs, JobId, nextJob)
    && KeysBelow(apps, ApplicationId, nextApp)
  }

  /** Adding a user under the next user id keeps the invariant, with the next id moved on. */
  lemma UserAddedKeepsInvariant(users: map<int, User>, jobs: seq<Job>, apps: seq<Application>,
                                nextUser: int, nextJob: int, nextApp: int, u: User)
    requires StoreInvariant(users, jobs, apps, nextUser, nextJob, nextApp) && u.id == nextUser
    ensures u.id !in users
    ensures StoreInvariant(users[u.id := u], jobs, apps, nextUser + 1, nextJob, nextApp)
  {
    var users' := users[u.id := u];
    assert JobOwnersExist(users', jobs) by {
      forall i | 0 <= i < |jobs| ensures jobs[i].createdBy in users' {
        assert jobs[i].createdBy in users;
      }
    }
    assert ApplicationRefsResolve(users', jobs, apps) by {
      forall i | 0 <= i < |apps| ensures apps[i].applicant in users' && FindJob(jobs, apps[i].job).Some? {
        assert apps[i].applicant in users;
      }
    }
  }

  /** Appending a job under the next job id, by an existing user, keeps the invariant. */
  lemma JobAddedKeepsInvariant(users: map<int, User>, jobs: seq<Job>, apps: seq<Application>,
                               nextUser: int, nextJob: int, nextApp: int, job: Job)
    requires StoreInvariant(users, jobs, apps, nextUser, nextJob, nextApp)
    requires job.id == nextJob && job.createdBy in users
    ensures FindJob(jobs, job.id).None?
    ensures StoreInvariant(users, jobs + [job], apps, nextUser, nextJob + 1, nextApp)
  {
    var jobs' := jobs + [job];
    forall j | j in jobs ensures j.id != job.id {
      var k :| 0 <= k < |jobs| && jobs[k] == j;
    }
    assert DistinctBy(jobs', JobId) by {
      forall i, j | 0 <= i < j < |jobs'| ensures JobId(jobs'[i]) != JobId(jobs'[j]) {
        if j < |jobs| { assert jobs'[i] == jobs[i] && jobs'[j] == jobs[j]; }
      }
    }
    assert JobOwnersExist(users, jobs') by {
      forall i | 0 <= i < |jobs'| ensures jobs'[i].createdBy in users {
        if i < |jobs| { assert jobs'[i] == jobs[i]; }
      }
    }
    assert ApplicationRefsResolve(users, jobs', apps) by {
      forall i | 0 <= i < |apps| ensures apps[i].applicant in users && FindJob(jobs', apps[i].job).Some? {
        assert FindJob(jobs, apps[i].job).value in jobs';
      }
    }
    assert KeysBelow(jobs', JobId, nextJob + 1) by {
      forall i | 0 <= i < |jobs'| ensures 0 < JobId(jobs'[i]) < nextJob + 1 {
        if i < |jobs| { assert jobs'[i] == jobs[i]; }
      }
    }
  }

  /** The jobs with the row whose id is `job.id` replaced by `job`. */
  function ReplaceJob(jobs: seq<Job>, job: Job): (r: seq<Job>)
    ensures |r| == |jobs|
    ensures forall i :: 0 <= i < |r| ==> r[i] == if jobs[i].id == job.id then job else jobs[i]
  {
    seq(|jobs|, i requires 0 <= i < |jobs| => if jobs[i].id == job.id then job else jobs[i])
  }

  /** Replacing an existing job's row, keeping its id and an existing creator, keeps the invariant. */
  lemma JobReplacedKeepsInvariant(users: map<int, User>, jobs: seq<Job>, apps: seq<Application>,
                                  nextUser: int, nextJob: int, nextApp: int, job: Job)
    requires StoreInvariant(users, jobs, apps, nextUser, nextJob, nextApp)
    requires job.createdBy in users && FindJob(jobs, job.id).Some?
    ensures StoreInvariant(users, ReplaceJob(jobs, job), apps, nextUser, nextJob, nextApp)
  {
    var jobs' := ReplaceJob(jobs, job);
    assert forall i :: 0 <= i < |jobs'| ==> jobs'[i].id == jobs[i].id;
    assert JobOwnersExist(users, jobs');
    assert KeysBelow(jobs', JobId, nextJob) by {
      assert forall i :: 0 <= i < |jobs'| ==> JobId(jobs'[i]) == JobId(jobs[i]);
      var target := FindJob(jobs, job.id).value;
      var k :| 0 <= k < |jobs| && jobs[k] == target;
      assert 0 < JobId(jobs[k]) < nextJob;
    }
    assert DistinctBy(jobs', JobId) by {
      forall i, j | 0 <= i < j < |jobs'| ensures JobId(jobs'[i]) != JobId(jobs'[j]) {
        assert JobId(jobs[i]) != JobId(jobs[j]);
      }
    }
    assert ApplicationRefsResolve(users, jobs', apps) by {
      forall i | 0 <= i < |apps| ensures apps[i].applicant in users && FindJob(jobs', apps[i].job).Some? {
        var target := FindJob(jobs, apps[i].job).value;
        var k :| 0 <= k < |jobs| && jobs[k] == target;
        assert jobs'[k] in jobs' && jobs'[k].id == apps[i].job;
      }
    }
  }

  /** Appending an application under the next application id, for an existing user and job, keeps the invariant. */
  lemma ApplicationAddedKeepsInvariant(users: map<int, User>, jobs: seq<Job>, apps: seq<Application>,
                                       nextUser: int, nextJob: int, nextApp: int, a: Application)
    requires StoreInvariant(users, jobs, apps, nextUser, nextJob, nextApp)
    requires a.id == nextApp && a.applicant in users && FindJob(jobs, a.job).Some?
    ensures StoreInvariant(users, jobs, apps + [a], nextUser, nextJob, nextApp + 1)
  {
    var apps' := apps + [a];
    assert DistinctBy(apps', ApplicationId) by {
      forall i, j | 0 <= i < j < |apps'| ensures ApplicationId(apps'[i]) != ApplicationId(apps'[j]) {
        if j < |apps| { assert apps'[i] == apps[i] && apps'[j] == apps[j]; }
      }
    }
    assert ApplicationRefsResolve(users, jobs, apps') by {
      forall i | 0 <= i < |apps'| ensures apps'[i].applicant in users && FindJob(jobs, apps'[i].job).Some? {
        if i < |apps| { assert apps'[i] == apps[i]; }
      }
    }
    assert KeysBelow(apps', ApplicationId, nextApp + 1) by {
      forall i | 0 <= i < |apps'| ensures 0 < ApplicationId(apps'[i]) < nextApp + 1 {
        if i < |apps| { assert apps'[i] == apps[i]; }
      }
    }
  }

  /** Deleting a job with its applications keeps the invariant. */
  lemma JobDeletionKeepsInvariant(users: map<int, User>, jobs: seq<Job>, apps: seq<Application>,
                                  nextUser: int, nextJob: int, nextApp: int, id: int)
    requires StoreInvariant(users, jobs, apps, nextUser, nextJob, nextApp)
    ensures StoreInvariant(users, Filter(jobs, JobNotWithId(id)), Filter(apps, ApplicationNotForJob(id)), nextUser, nextJob, nextApp)
  {
    JobDeletionKeepsConsistent(users, jobs, apps, id);
    FilterKeepsBelow(jobs, JobId, JobNotWithId(id), nextJob);
    FilterKeepsBelow(apps, ApplicationId, ApplicationNotForJob(id), nextApp);
  }

  /** Deleting one application keeps the invariant. */
  lemma ApplicationDeletionKeepsInvariant(users: map<int, User>, jobs: seq<Job>, apps: seq<Application>,
                                          nextUser: int, nextJob: int, nextApp: int, id: int)
    requires StoreInvariant(users, jobs, apps, nextUser, nextJob, nextApp)
    ensures StoreInvariant(users, jobs, Filter(apps, ApplicationNotWithId(id)), nextUser, nextJob, nextApp)
  {
    ApplicationDeletionKeepsConsistent(users, jobs, apps, id);
    FilterKeepsBelow(apps, ApplicationId, ApplicationNotWithId(id), nextApp);
  }

  /** Deleting a user with their jobs and the applications that refer to either keeps the invariant. */
  lemma UserDeletionKeepsInvariant(users: map<int, User>, jobs: seq<Job>, apps: seq<Application>,
                                   nextUser: int, nextJob: int, nextApp: int, id: int)
    requires StoreInvariant(users, jobs, apps, nextUser, nextJob, nextApp)
    ensures StoreInvariant(users - {id}, Filter(jobs, JobNotCreatedBy(id)), Filter(apps, SurvivesUserDeletion(jobs, id)),
                           nextUser, nextJob, nextApp)
  {
    UserDeletionKeepsConsistent(users, jobs, apps, id);
    FilterKeepsBelow(jobs, JobId, JobNotCreatedBy(id), nextJob);
    FilterKeepsBelow(apps, ApplicationId, SurvivesUserDeletion(jobs, id), nextApp);
  }

  /**
   * The database: users by id, jobs and applications in creation order,
   * and the next primary key of each table.
   */
  class Store {
    var users: map<int, User>
    var jobs: seq<Job>
    var applications: seq<Application>
    var nextUserId: int
    var nextJobId: int
    var nextApplicationId: int

    /** The records are consistent and every id is below its table's next key. */
    predicate Valid()
      reads this
    {
      StoreInvariant(users, jobs, applications, nextUserId, nextJobId, nextApplicationId)
    }

    constructor ()
      ensures Valid()
      ensures users == map[] && jobs == [] && applications == []
    {
      users, jobs, applications := map[], [], [];
      nextUserId, nextJobId, nextApplicationId := 1, 1, 1;
    }

    /** `User.objects.create_user(...)`: a new, non-superuser user under a fresh id. */
    method CreateUser(username: string, email: string, password: string, firstName: string, lastName: string)
      returns (u: User)
      requires Valid()
      modifies this
      ensures Valid()
      ensures u == User(old(nextUserId), username, email, password, firstName, lastName, false)
      ensures u.id !in old(users) && users == old(users)[u.id := u]
      ensures jobs == old(jobs) && applications == old(applications)
    {
      u := User(nextUserId, username, email, password, firstName, lastName, false);
      UserAddedKeepsInvariant(users, jobs, applications, nextUserId, nextJobId, nextApplicationId, u);
      users := users[u.id := u];
      nextUserId := nextUserId + 1;
    }

    /** Saving a new job: it gets a fresh id and `posted_at` is set to the time of creation. */
    method InsertJob(job: Job, now: int) returns (saved: Job)
      requires Valid() && job.createdBy in users
      modifies this
      ensures Valid()
      ensures saved == job.(id := old(nextJobId), postedAt := now)
      ensures FindJob(old(jobs), saved.id).None?
      ensures jobs == old(jobs) + [saved]
      ensures users == old(users) && applications == old(applications)
    {
      saved := job.(id := nextJobId, postedAt := now);
      JobAddedKeepsInvariant(users, jobs, applications, nextUserId, nextJobId, nextApplicationId, saved);
      jobs := jobs + [saved];
      nextJobId := nextJobId + 1;
    }

    /** Saving an existing job: the record with its id is replaced. */
    method UpdateJob(job: Job)
      requires Valid() && job.createdBy in users && FindJob(jobs, job.id).Some?
      modifies this
      ensures Valid()
      ensures |jobs| == |old(jobs)|
      ensures forall i :: 0 <= i < |jobs| ==> jobs[i] == if old(jobs)[i].id == job.id then job else old(jobs)[i]
      ensures users == old(users) && applications == old(applications)
    {
      JobReplacedKeepsInvariant(users, jobs, applications, nextUserId, nextJobId, nextApplicationId, job);
      jobs := ReplaceJob(jobs, job);
    }

    /**
     * `Application.objects.create(...)`: a new application under a fresh id,
     * with the default status and `applied_at` set to the time of creation.
     */
    method CreateApplication(
      applicant: int, job: int, resume: Option<StoredFile>, coverLetter: string,
      phone: string, linkedin: string, now: int)
      returns (a: Application)
      requires Valid() && applicant in users && FindJob(jobs, job).Some?
      modifies this
      ensures Valid()
      ensures a == Application(old(nextApplicationId), applicant, DefaultStatus, now, job, resume, coverLetter, phone, linkedin)
      ensures applications == old(applications) + [a]
      ensures users == old(users) && jobs == old(jobs)
    {
      a := Application(nextApplicationId, applicant, DefaultStatus, now, job, resume, coverLetter, phone, linkedin);
      ApplicationAddedKeepsInvariant(users, jobs, applications, nextUserId, nextJobId, nextApplicationId, a);
      applications := applications + [a];
      nextApplicationId := nextApplicationId + 1;
    }

    /** Deleting a job also deletes every application to it. */
    method DeleteJob(id: int)
      requires Valid()
      modifies this
      ensures Valid()
      ensures jobs == Filter(old(jobs), JobNotWithId(id))
      ensures applications == Filter(old(applications), ApplicationNotForJob(id))
      ensures users == old(users)
      ensures NoDuplicatePairs(old(applications)) ==> NoDuplicatePairs(applications)
    {
      JobDeletionKeepsInvariant(users, jobs, applications, nextUserId, nextJobId, nextApplicationId, id);
      if NoDuplicatePairs(applications) {
        FilterKeepsDistinct(applications, Pair, ApplicationNotForJob(id));
      }
      jobs, applications := Filter(jobs, JobNotWithId(id)), Filter(applications, ApplicationNotForJob(id));
    }

    /** Deleting one application leaves every other record in place. */
    method DeleteApplication(id: int)
      requires Valid()
      modifies this
      ensures Valid()
      ensures applications == Filter(old(applications), ApplicationNotWithId(id))
      ensures users == old(users) && jobs == old(jobs)
      ensures NoDuplicatePairs(old(applications)) ==> NoDuplicatePairs(applications)
    {
      ApplicationDeletionKeepsInvariant(users, jobs, applications, nextUserId, nextJobId, nextApplicationId, id);
      if NoDuplicatePairs(applications) {
        FilterKeepsDistinct(applications, Pair, ApplicationNotWithId(id));
      }
      applications := Filter(applications, ApplicationNotWithId(id));
    }

    /**
     * Deleting a user also deletes the jobs the user created, the
     * applications to those jobs and the user's own applications.
     */
    method DeleteUser(id: int)
      requires Valid()
      modifies this
      ensures Valid()
      ensures users == old(users) - {id}
      ensures jobs == Filter(old(jobs), JobNotCreatedBy(id))
      ensures applications == Filter(old(applications), SurvivesUserDeletion(old(jobs), id))
      ensures NoDuplicatePairs(old(applications)) ==> NoDuplicatePairs(applications)
    {
      UserDeletionKeepsInvariant(users, jobs, applications, nextUserId, nextJobId, nextApplicationId, id);
      if NoDuplicatePairs(applications) {
        FilterKeepsDistinct(applications, Pair, SurvivesUserDeletion(jobs, id));
      }
      users, jobs, applications := users - {id}, Filter(jobs, JobNotCreatedBy(id)), Filter(applications, SurvivesUserDeletion(jobs, id));
    }
  }
}
