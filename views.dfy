/**
 * The API views: each endpoint as the status code and JSON body it answers
 * with, over the store it reads or changes.
 */
module Views {
  import opened Wrappers
  import opened Text
  import opened Wire
  import opened Models
  import opened Database
  import opened Serializers

  /** The fields `RegisterSerializer` renders back: the password fields are write-only. */
  datatype RegisteredUser = RegisteredUser(username: string, email: string, firstName: string, lastName: string)

  /** The JSON bodies the views answer with. */
  datatype Body =
    | Message(message: string)
    | Registered(data: RegisteredUser, message: string, userId: int, username: string)
    | RegistrationRejected(errors: FieldErrors, message: string)
    | LoggedIn(login: LoginBody)
    | Profile(info: UserInfo)
    | JobListing(jobs: seq<JobData>)
    | JobDetail(job: JobData)
    | ApplicationCreated(application: Application, message: string)
    | ApplicationHistory(entries: seq<AppEntry>)
    | NotAuthenticated

  datatype HttpResponse = HttpResponse(status: int, body: Body)

  const Ok := 200
  const Created := 201
  const BadRequest := 400
  const Unauthorized := 401
  const NotFound := 404
  const ServerError := 500

  /**
   * `register_user`: a valid request creates the user and answers 201 with
   * the new user; an invalid one answers 400 with the serializer's errors and
   * changes nothing.
   */
  method RegisterUser(db: Store, req: RegisterRequest) returns (r: HttpResponse)
    requires db.Valid()
    modifies db
    ensures db.Valid()
    ensures db.jobs == old(db.jobs) && db.applications == old(db.applications)
    ensures Validate(req, UsernamesOf(old(db.users))).Failure? ==>
      && r == HttpResponse(BadRequest, RegistrationRejected(Validate(req, UsernamesOf(old(db.users))).error, "Registration failed"))
      && db.users == old(db.users)
    ensures Validate(req, UsernamesOf(old(db.users))).Success? ==>
      var d := Validate(req, UsernamesOf(old(db.users))).value;
      && r.status == Created && r.body.Registered?
      && r.body.userId !in old(db.users)
      && r.body.username == d["username"] == r.body.data.username && r.body.data.email == NormalizeEmail(d["email"])
      && r.body.data.firstName == (if "first_name" in d then d["first_name"] else "")
      && r.body.data.lastName == (if "last_name" in d then d["last_name"] else "")
      && db.users == old(db.users)[r.body.userId := User(r.body.userId, r.body.username, r.body.data.email,
           d["password"], r.body.data.firstName, r.body.data.lastName, false)]
      && r.body.message == "User registered successfully"
  {
    var before := db.users;
    var checked := Validate(req, UsernamesOf(before));
    match checked {
      case Failure(errors) =>
        r := HttpResponse(BadRequest, RegistrationRejected(errors, "Registration failed"));
      case Success(d) =>
        ValidatedDataComplete(req, UsernamesOf(db.users));
        assert "username" in d && "email" in d && "password" in d && "password2" in d;
        var u := Create(db, d);
        r := HttpResponse(Created, Registered(
          RegisteredUser(u.username, u.email, u.firstName, u.lastName),
          "User registered successfully", u.id, u.username));
        assert db.users == before[u.id := u];
    }
  }

  /**
   * `login_user`, given what `authenticate` returned and the two tokens
   * minted for that user: 200 with the user and the tokens, or 401.
   */
  function LoginUser(authenticated: Option<User>, access: string, refresh: string): (r: HttpResponse)
    ensures r.status == Ok <==> authenticated.Some?
    ensures r.status == Ok ==>
      r.body == LoggedIn(LoginBody(Some("Login successful"), authenticated.value.id,
        authenticated.value.username, authenticated.value.email, access, refresh))
    ensures r.status != Ok ==> r == HttpResponse(Unauthorized, Message("Invalid username or password"))
  {
    match authenticated
    case None => HttpResponse(Unauthorized, Message("Invalid username or password"))
    case Some(u) => HttpResponse(Ok, LoggedIn(LoginBody(Some("Login successful"), u.id, u.username, u.email, access, refresh)))
  }

  /** `logout_user`: always 200; the server keeps no session to end. */
  function LogoutUser(): (r: HttpResponse)
    ensures r == HttpResponse(Ok, Message("Logout successful"))
  {
    HttpResponse(Ok, Message("Logout successful"))
  }

  /** `get_user_info` for the user the bearer token names, if any. */
  function GetUserInfo(requester: Option<User>): (r: HttpResponse)
    ensures r.status == Ok <==> requester.Some?
    ensures requester.Some? ==>
      && r.body.Profile? && r.body.info.userId == requester.value.id
      && r.body.info.username == requester.value.username && r.body.info.email == requester.value.email
      && r.body.info.firstName == requester.value.firstName && r.body.info.lastName == requester.value.lastName
    ensures requester.None? ==> r == HttpResponse(Unauthorized, NotAuthenticated)
  {
    match requester
    case None => HttpResponse(Unauthorized, NotAuthenticated)
    case Some(u) => HttpResponse(Ok, Profile(UserInfo(u.id, u.username, u.email, u.firstName, u.lastName)))
  }

  /** `JobsSerializer`: every field of the job, with `created_by` as the creator's username. */
  function SerializeJob(users: map<int, User>, j: Job): (r: JobData)
    requires j.createdBy in users
    ensures r.id == j.id && r.createdBy == users[j.createdBy].username
    ensures r.title == j.title && r.about == j.about && r.description == j.description
    ensures r.salaryRange == j.salaryRange && r.company == j.company && r.location == j.location && r.postedAt == j.postedAt
  {
    JobData(j.id, users[j.createdBy].username, j.title, j.about, j.description, j.salaryRange, j.company, j.location, j.postedAt)
  }

  /** `job_list`: every job, serialized, in table order, under `data`. */
  function JobList(users: map<int, User>, jobs: seq<Job>): (r: HttpResponse)
    requires JobOwnersExist(users, jobs)
    ensures r.status == Ok && r.body.JobListing? && |r.body.jobs| == |jobs|
    ensures forall i :: 0 <= i < |jobs| ==> r.body.jobs[i] == SerializeJob(users, jobs[i])
  {
    HttpResponse(Ok, JobListing(seq(|jobs|, i requires 0 <= i < |jobs| && JobOwnersExist(users, jobs) => SerializeJob(users, jobs[i]))))
  }

  /** `job_detail`: the job with that id, or 404. */
  function JobDetailView(users: map<int, User>, jobs: seq<Job>, jobId: int): (r: HttpResponse)
    requires JobOwnersExist(users, jobs)
    ensures r.status == Ok <==> FindJob(jobs, jobId).Some?
    ensures r.status == Ok ==> r.body.JobDetail? && r.body.job.id == jobId
    ensures r.status != Ok ==> r == HttpResponse(NotFound, Message("Job not found"))
  {
    match FindJob(jobs, jobId)
    case None => HttpResponse(NotFound, Message("Job not found"))
    case Some(j) =>
      assert j in jobs;
      HttpResponse(Ok, JobDetail(SerializeJob(users, j)))
  }

  /** In a table of distinct ids, looking up a row's id finds that row. */
  lemma {:induction false} FindJobFindsRow(jobs: seq<Job>, i: int)
    requires DistinctBy(jobs, JobId) && 0 <= i < |jobs|
    ensures FindJob(jobs, jobs[i].id) == Some(jobs[i])
    decreases i
  {
    if i > 0 {
      assert JobId(jobs[0]) != JobId(jobs[i]);
      var tail := jobs[1..];
      forall a, b | 0 <= a < b < |tail| ensures JobId(tail[a]) != JobId(tail[b]) {
        assert JobId(jobs[a + 1]) != JobId(jobs[b + 1]);
      }
      FindJobFindsRow(tail, i - 1);
    }
  }

  /** The detail of a listed job is exactly its entry in the listing. */
  lemma DetailAgreesWithList(users: map<int, User>, jobs: seq<Job>, i: int)
    requires Consistent(users, jobs, []) && 0 <= i < |jobs|
    ensures JobDetailView(users, jobs, jobs[i].id) == HttpResponse(Ok, JobDetail(JobList(users, jobs).body.jobs[i]))
  {
    FindJobFindsRow(jobs, i);
  }

  /**
   * How Django coerces an id looked up with `objects.get(id=...)`: an absent
   * value matches nothing, and text that `int()` rejects raises.
   */
  datatype IdField = Missing | Malformed(text: string) | Id(value: int)

  function CoerceId(v: Option<string>): (r: IdField)
    ensures r.Missing? <==> v.None?
    ensures r.Id? <==> v.Some? && ParseStrictInt(v.value).Some?
    ensures r.Id? ==> r.value == ParseStrictInt(v.value).value
    ensures r.Malformed? ==> r.text == v.value
  {
    match v
    case None => Missing
    case Some(t) => match ParseStrictInt(t) { case None => Malformed(t) case Some(n) => Id(n) }
  }

  /** The 500 answer to an id that `int()` rejects, with Python's quoting of the text simplified. */
  function MalformedIdMessage(text: string): string {
    "Error: Field 'id' expected a number but got '" + text + "'."
  }

  /** The form fields of `POST /apply/`; each is absent or text, and the resume a stored file. */
  datatype ApplyRequest = ApplyRequest(
    applicant: Option<string>, job: Option<string>, resume: Option<StoredFile>,
    coverLetter: Option<string>, phone: Option<string>, linkedin: Option<string>)

  /** What `apply_job` decides before it writes: refuse with a status and message, or create. */
  datatype ApplyDecision = Refuse(status: int, message: string) | Admit(applicant: int, job: int)

  /**
   * The checks of `apply_job` in their order: the applicant exists, the job
   * exists, and the pair has not applied yet.
   */
  function DecideApplication(users: map<int, User>, jobs: seq<Job>, apps: seq<Application>,
                             applicant: Option<string>, job: Option<string>): (d: ApplyDecision)
    ensures d.Admit? <==>
      && CoerceId(applicant).Id? && CoerceId(applicant).value in users
      && CoerceId(job).Id? && FindJob(jobs, CoerceId(job).value).Some?
      && !HasApplication(apps, CoerceId(applicant).value, CoerceId(job).value)
    ensures d.Admit? ==> d.applicant == CoerceId(applicant).value && d.job == CoerceId(job).value
    ensures d.Refuse? ==> d.status in {NotFound, BadRequest, ServerError}
    ensures CoerceId(applicant).Malformed? ==> d == Refuse(ServerError, MalformedIdMessage(CoerceId(applicant).text))
    ensures CoerceId(applicant).Missing? || (CoerceId(applicant).Id? && CoerceId(applicant).value !in users) ==>
      d == Refuse(NotFound, "User not found")
    ensures CoerceId(applicant).Id? && CoerceId(applicant).value in users ==>
      && (CoerceId(job).Malformed? ==> d == Refuse(ServerError, MalformedIdMessage(CoerceId(job).text)))
      && (CoerceId(job).Missing? || (CoerceId(job).Id? && FindJob(jobs, CoerceId(job).value).None?) ==>
            d == Refuse(NotFound, "Job not found"))
      && (CoerceId(job).Id? && FindJob(jobs, CoerceId(job).value).Some?
          && HasApplication(apps, CoerceId(applicant).value, CoerceId(job).value) ==>
            d == Refuse(BadRequest, "You have already applied for this job"))
  {
    match CoerceId(applicant)
    case Malformed(t) => Refuse(ServerError, MalformedIdMessage(t))
    case Missing => Refuse(NotFound, "User not found")
    case Id(u) =>
      if u !in users then Refuse(NotFound, "User not found")
      else match CoerceId(job)
        case Malformed(t) => Refuse(ServerError, MalformedIdMessage(t))
        case Missing => Refuse(NotFound, "Job not found")
        case Id(j) =>
          if FindJob(jobs, j).None? then Refuse(NotFound, "Job not found")
          else if HasApplication(apps, u, j) then Refuse(BadRequest, "You have already applied for this job")
          else Admit(u, j)
  }

  /** The applicant is checked before the job: an unknown applicant is reported whatever the job field holds. */
  lemma ApplicantCheckedFirst(users: map<int, User>, jobs: seq<Job>, apps: seq<Application>,
                              applicant: Option<string>, job: Option<string>)
    requires CoerceId(applicant).Missing? || (CoerceId(applicant).Id? && CoerceId(applicant).value !in users)
    ensures DecideApplication(users, jobs, apps, applicant, job) == Refuse(NotFound, "User not found")
  {
  }

  /** A second application for the same applicant and job is refused with 400. */
  lemma DuplicateRefused(users: map<int, User>, jobs: seq<Job>, apps: seq<Application>, a: Application)
    requires a in apps && a.applicant in users && FindJob(jobs, a.job).Some?
    ensures DecideApplication(users, jobs, apps, Some(IntString(a.applicant)), Some(IntString(a.job)))
      == Refuse(BadRequest, "You have already applied for this job")
  {
    ParseStrictIntReadsIntString(a.applicant);
    ParseStrictIntReadsIntString(a.job);
    assert Pair(a) == (a.applicant, a.job);
  }

  /** Appending an application for a pair that has none keeps every pair unique. */
  lemma AppendNewPairKeepsDistinct(apps: seq<Application>, a: Application)
    requires NoDuplicatePairs(apps) && !HasApplication(apps, a.applicant, a.job)
    ensures NoDuplicatePairs(apps + [a])
  {
    var s := apps + [a];
    forall i, j | 0 <= i < j < |s| ensures Pair(s[i]) != Pair(s[j]) {
      if j == |apps| {
        assert s[i] in apps;
      } else {
        assert Pair(apps[i]) != Pair(apps[j]);
      }
    }
  }

  /**
   * `apply_job`: the applicant comes from the form, not from the bearer
   * token; on success one application with status pending is appended and
   * 201 answered; every refusal leaves the store as it was. A store without
   * duplicate pairs keeps that property.
   */
  method ApplyJob(db: Store, authenticated: bool, req: ApplyRequest, now: int) returns (r: HttpResponse)
    requires db.Valid()
    modifies db
    ensures db.Valid()
    ensures db.users == old(db.users) && db.jobs == old(db.jobs)
    ensures !authenticated ==> r == HttpResponse(Unauthorized, NotAuthenticated) && db.applications == old(db.applications)
    ensures authenticated ==>
      match DecideApplication(old(db.users), old(db.jobs), old(db.applications), req.applicant, req.job)
      case Refuse(status, message) =>
        r == HttpResponse(status, Message(message)) && db.applications == old(db.applications)
      case Admit(applicant, job) =>
        && r.status == Created && r.body.ApplicationCreated?
        && r.body.message == "Application submitted successfully"
        && db.applications == old(db.applications) + [r.body.application]
        && r.body.application.applicant == applicant && r.body.application.job == job
        && r.body.application.status == DefaultStatus && r.body.application.appliedAt == now
        && r.body.application.resume == req.resume
        && r.body.application.coverLetter == req.coverLetter.GetOr("")
        && r.body.application.phone == req.phone.GetOr("")
        && r.body.application.linkedin == req.linkedin.GetOr("")
    ensures NoDuplicatePairs(old(db.applications)) ==> NoDuplicatePairs(db.applications)
  {
    if !authenticated {
      return HttpResponse(Unauthorized, NotAuthenticated);
    }
    var decision := DecideApplication(db.users, db.jobs, db.applications, req.applicant, req.job);
    match decision {
      case Refuse(status, message) =>
        r := HttpResponse(status, Message(message));
      case Admit(applicant, job) =>
        var before := db.applications;
        var a := db.CreateApplication(applicant, job, req.resume,
          req.coverLetter.GetOr(""), req.phone.GetOr(""), req.linkedin.GetOr(""), now);
        if NoDuplicatePairs(before) {
          AppendNewPairKeepsDistinct(before, a);
        }
        r := HttpResponse(Created, ApplicationCreated(a, "Application submitted successfully"));
    }
  }

  /** Whether an application belongs to user `uid`. */
  function AppliedBy(uid: int): Application -> bool { (a: Application) => a.applicant == uid }

  /** One entry of `user_applications`; the resume's URL is made absolute against `origin`. */
  function EntryFor(a: Application, j: Job, origin: string): AppEntry {
    AppEntry(a.id, StatusValue(a.status), a.appliedAt,
      if HasFile(a.resume) then Some(origin + a.resume.value.url) else None,
      a.coverLetter, a.phone, a.linkedin,
      JobSummary(j.id, j.title, j.company, j.location, j.salaryRange, j.about, j.postedAt))
  }

  /** Every application's job exists. */
  predicate JobsResolve(jobs: seq<Job>, apps: seq<Application>) {
    forall a :: a in apps ==> FindJob(jobs, a.job).Some?
  }

  /** Every application's job resolves in a consistent store. */
  lemma RefsResolveJobs(users: map<int, User>, jobs: seq<Job>, apps: seq<Application>)
    requires ApplicationRefsResolve(users, jobs, apps)
    ensures JobsResolve(jobs, apps)
  {
    forall a | a in apps ensures FindJob(jobs, a.job).Some? {
      var k :| 0 <= k < |apps| && apps[k] == a;
    }
  }

  /** The entries for user `uid`'s applications, in table order. */
  function HistoryOf(jobs: seq<Job>, apps: seq<Application>, uid: int, origin: string): (r: seq<AppEntry>)
    requires JobsResolve(jobs, apps)
  {
    var mine := Filter(apps, AppliedBy(uid));
    seq(|mine|, i requires 0 <= i < |mine| && JobsResolve(jobs, apps) =>
      EntryFor(mine[i], FindJob(jobs, mine[i].job).value, origin))
  }

  /**
   * Every entry of the history is one of the user's applications, with its
   * id, its status value and its job; the status always reads back as one of
   * the four choices.
   */
  lemma HistoryOnlyMine(jobs: seq<Job>, apps: seq<Application>, uid: int, origin: string)
    requires JobsResolve(jobs, apps)
    ensures var h := HistoryOf(jobs, apps, uid, origin);
      forall e :: e in h ==> exists a ::
        && a in apps && a.applicant == uid && e.id == a.id
        && e.job.id == a.job && ParseStatus(e.status) == Some(a.status)
  {
    var mine := Filter(apps, AppliedBy(uid));
    var h := HistoryOf(jobs, apps, uid, origin);
    forall e | e in h ensures exists a ::
        && a in apps && a.applicant == uid && e.id == a.id
        && e.job.id == a.job && ParseStatus(e.status) == Some(a.status)
    {
      var i :| 0 <= i < |h| && h[i] == e;
      StatusChoicesExact(mine[i].status, "");
      assert mine[i] in mine;
    }
  }

  /** Every application of the user has an entry in the history, with its id and its job. */
  lemma HistoryAllMine(jobs: seq<Job>, apps: seq<Application>, uid: int, origin: string)
    requires JobsResolve(jobs, apps)
    ensures var h := HistoryOf(jobs, apps, uid, origin);
      forall a :: a in apps && a.applicant == uid ==> exists e :: e in h && e.id == a.id && e.job.id == a.job
  {
    var mine := Filter(apps, AppliedBy(uid));
    var h := HistoryOf(jobs, apps, uid, origin);
    forall a | a in apps && a.applicant == uid ensures exists e :: e in h && e.id == a.id && e.job.id == a.job {
      assert AppliedBy(uid)(a);
      var i :| 0 <= i < |mine| && mine[i] == a;
      assert h[i] in h;
    }
  }

  /**
   * `user_applications`: for an authenticated request, the entries of the
   * applications of `userId`, whoever asks.
   */
  method UserApplications(db: Store, authenticated: bool, userId: int, origin: string) returns (r: HttpResponse)
    requires db.Valid()
    ensures !authenticated ==> r == HttpResponse(Unauthorized, NotAuthenticated)
    ensures authenticated ==>
      && JobsResolve(db.jobs, db.applications)
      && r == HttpResponse(Ok, ApplicationHistory(HistoryOf(db.jobs, db.applications, userId, origin)))
  {
    if !authenticated {
      return HttpResponse(Unauthorized, NotAuthenticated);
    }
    RefsResolveJobs(db.users, db.jobs, db.applications);
    var data := CollectEntries(db.jobs, db.applications, userId, origin);
    r := HttpResponse(Ok, ApplicationHistory(data));
  }

  /** The loop of `user_applications`: one entry per application of `uid`, in table order. */
  method CollectEntries(jobs: seq<Job>, apps: seq<Application>, uid: int, origin: string) returns (data: seq<AppEntry>)
    requires JobsResolve(jobs, apps)
    ensures data == HistoryOf(jobs, apps, uid, origin)
  {
    var applications := Filter(apps, AppliedBy(uid));
    data := [];
    var i := 0;
    while i < |applications|
      invariant 0 <= i <= |applications|
      invariant |data| == i
      invariant forall k :: 0 <= k < i ==> data[k] == EntryFor(applications[k], FindJob(jobs, applications[k].job).value, origin)
    {
      var app := applications[i];
      assert app in apps;
      var job := FindJob(jobs, app.job).value;
      data := data + [EntryFor(app, job, origin)];
      i := i + 1;
    }
  }
}
