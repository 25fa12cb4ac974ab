/**
 * The two tiers together: what the browser sends is what the views read,
 * and what the views answer is what the pages show.
 */
module EndToEnd {
  import opened Wrappers
  import opened Text
  import opened Wire
  import opened Models
  import opened Database
  import opened Serializers
  import opened Views
  import opened AuthContext
  import ApplyPage
  import ApplicationsPage
  import JoblistPage
  import LoginPage
  import RegisterPage

  /** A view's answer as the client branches on it: 2xx is `ok`; other bodies carry `message` and maybe `errors`. */
  function ClientMessage(r: HttpResponse): MessageBody {
    match r.body
    case Message(m) => MessageBody(Some(m), None)
    case RegistrationRejected(errors, m) => MessageBody(Some(m), Some(errors))
    case Registered(_, m, _, _) => MessageBody(Some(m), None)
    case ApplicationCreated(_, m) => MessageBody(Some(m), None)
    case _ => MessageBody(None, None)
  }

  function IsOk(r: HttpResponse): bool { 200 <= r.status < 300 }

  /** `login_user`'s answer as `login` receives it. */
  function LoginResponse(r: HttpResponse): Response<LoginBody, MessageBody> {
    if IsOk(r) && r.body.LoggedIn? then Ok(r.body.login) else NotOk(ClientMessage(r))
  }

  /** `register_user`'s answer as `register` receives it. */
  function RegisterResponse(r: HttpResponse): Response<MessageBody, MessageBody> {
    if IsOk(r) then Ok(ClientMessage(r)) else NotOk(ClientMessage(r))
  }

  /** `get_user_info`'s answer as `checkAuth` receives it. */
  function UserInfoResponse(r: HttpResponse): Response<UserInfo, MessageBody> {
    if IsOk(r) && r.body.Profile? then Ok(r.body.info) else NotOk(ClientMessage(r))
  }

  /**
   * Signing in with credentials that authenticate stores the two minted
   * tokens and the user, and the login page moves on to the job list;
   * credentials that do not authenticate leave the session as it was and
   * the page shows the server's message.
   */
  lemma LoginThroughBothTiers(s: Session, authenticated: Option<User>, access: string, refresh: string)
    ensures var step := LoginNext(s, LoginResponse(Views.LoginUser(authenticated, access, refresh)));
      && (authenticated.Some? ==>
        && step.session.access == Some(access) && step.session.refresh == Some(refresh)
        && step.session.user == Some(SessionUser(authenticated.value.id, authenticated.value.username, authenticated.value.email, None, None))
        && LoginPage.LoginAction(step.result) == ActionOutcome("Login successful", Some("/joblist")))
      && (authenticated.None? ==>
        && step.session == s
        && LoginPage.LoginAction(step.result) == ActionOutcome("Invalid username or password", None))
  {
  }

  /**
   * At startup, a token the server no longer accepts is removed with the
   * refresh token; an accepted one yields the server's profile of the user.
   */
  lemma CheckAuthThroughBothTiers(s: Session, requester: Option<User>)
    requires Truthy(s.access)
    ensures var t := CheckAuthNext(s, UserInfoResponse(GetUserInfo(requester)));
      && (requester.None? ==> t.user.None? && t.access.None? && t.refresh.None?)
      && (requester.Some? ==>
        && t.access == s.access
        && t.user == Some(SessionUser(requester.value.id, requester.value.username, requester.value.email,
             Some(requester.value.firstName), Some(requester.value.lastName))))
  {
  }

  /** The JSON `register` posts, as the serializer receives it: every key present. */
  function RegisterRequestOf(p: RegisterPayload): RegisterRequest {
    RegisterRequest(Some(p.username), Some(p.email), Some(p.password), Some(p.password2), Some(p.firstName), Some(p.lastName))
  }

  /**
   * Registering from the page with two different passwords that each pass
   * on their own shows `password: Passwords do not match` and stays on the
   * page.
   */
  lemma MismatchShownOnPage(form: RegisterPage.RegisterForm, taken: set<string>)
    requires Strip(form.username) != "" && Strip(form.username) !in taken
    requires |Strip(form.password)| >= PasswordMinLength && |Strip(form.password2)| >= PasswordMinLength
    requires Strip(form.password) != Strip(form.password2)
    ensures Validate(RegisterRequestOf(RegisterPage.RegisterArguments(form)), taken) == Failure([("password", [MismatchMessage])])
    ensures RegisterPage.RegisterAction(RegisterOutcome(RegisterResponse(
        HttpResponse(BadRequest, RegistrationRejected([("password", [MismatchMessage])], "Registration failed")))))
      == ActionOutcome("password: " + MismatchMessage, None)
  {
    MismatchRejected(RegisterRequestOf(RegisterPage.RegisterArguments(form)), taken);
    MismatchText();
  }

  /** The page's text for the mismatch refusal. */
  lemma MismatchText()
    ensures RegisterPage.RegisterAction(RegisterOutcome(RegisterResponse(
        HttpResponse(BadRequest, RegistrationRejected([("password", [MismatchMessage])], "Registration failed")))))
      == ActionOutcome("password: " + MismatchMessage, None)
  {
    var errors := [("password", [MismatchMessage])];
    var response := RegisterResponse(HttpResponse(BadRequest, RegistrationRejected(errors, "Registration failed")));
    assert response == NotOk(MessageBody(Some("Registration failed"), Some(errors)));
    var result := RegisterOutcome(response);
    assert result.errors == Some(errors) && !result.success;
    RegisterPage.SingleErrorText("password", MismatchMessage);
    assert RegisterPage.ErrorsText(errors) != [];
  }

  /**
   * Every refusal of `register_user` carries errors, and the page shows
   * them rather than a fallback.
   */
  lemma RefusalShowsFieldErrors(req: RegisterRequest, taken: set<string>)
    requires Validate(req, taken).Failure?
    ensures var errors := Validate(req, taken).error;
      var shown := RegisterPage.RegisterAction(RegisterOutcome(RegisterResponse(
        HttpResponse(BadRequest, RegistrationRejected(errors, "Registration failed")))));
      errors != [] && shown == ActionOutcome(RegisterPage.ErrorsText(errors), None)
  {
    var errors := Validate(req, taken).error;
    var result := RegisterOutcome(RegisterResponse(HttpResponse(BadRequest, RegistrationRejected(errors, "Registration failed"))));
    RefusalHasErrors(req, taken);
    RegisterPage.FieldErrorsShown(result);
  }

  /** A refused registration never has an empty errors object. */
  lemma RefusalHasErrors(req: RegisterRequest, taken: set<string>)
    requires Validate(req, taken).Failure?
    ensures Validate(req, taken).error != []
  {
    var username := CheckUsername(req.username, taken);
    var email := CheckCharField(req.email, true, true, 0);
    var password := CheckCharField(req.password, true, false, PasswordMinLength);
    var password2 := CheckCharField(req.password2, true, false, PasswordMinLength);
    var firstName := CheckCharField(req.firstName, false, true, 0);
    var lastName := CheckCharField(req.lastName, false, true, 0);
    assert Validate(req, taken) == Assemble(username, email, password, password2, firstName, lastName);
    AssembledRefusalHasErrors(username, email, password, password2, firstName, lastName);
  }

  /** When no required field is left undecided, a refusal names at least one field. */
  lemma AssembledRefusalHasErrors(username: FieldCheck, email: FieldCheck, password: FieldCheck,
                                  password2: FieldCheck, firstName: FieldCheck, lastName: FieldCheck)
    requires !username.Omitted? && !email.Omitted? && !password.Omitted? && !password2.Omitted?
    requires Assemble(username, email, password, password2, firstName, lastName).Failure?
    ensures Assemble(username, email, password, password2, firstName, lastName).error != []
  {
    var errors := ErrorEntry("username", username) + ErrorEntry("email", email)
      + ErrorEntry("password", password) + ErrorEntry("password2", password2);
    if errors == [] {
      assert username.Passed? && email.Passed? && password.Passed? && password2.Passed?;
    }
  }

  /** The text a form field carries, if it is text. */
  function TextOf(v: Option<ApplyPage.FormValue>): Option<string> {
    if v.Some? && v.value.TextValue? then Some(v.value.text) else None
  }

  /** The multipart form `handleApply` posts, as `apply_job` reads it; `resume` is the stored upload. */
  function ApplyRequestOf(fields: seq<(string, ApplyPage.FormValue)>, resume: Option<StoredFile>): ApplyRequest {
    ApplyRequest(
      TextOf(ApplyPage.FieldValue(fields, "applicant")), TextOf(ApplyPage.FieldValue(fields, "job")), resume,
      TextOf(ApplyPage.FieldValue(fields, "cover_letter")), TextOf(ApplyPage.FieldValue(fields, "phone")),
      TextOf(ApplyPage.FieldValue(fields, "linkedin")))
  }

  /**
   * The server reads the ids the page sent, and stores the cover letter,
   * phone and LinkedIn exactly as typed: a field left empty is not sent and
   * defaults to ''.
   */
  lemma ApplyFormReadByServer(jobId: int, userId: int, form: ApplyPage.Form, resume: Option<StoredFile>)
    ensures var req := ApplyRequestOf(ApplyPage.ApplicationFields(jobId, userId, form), resume);
      && CoerceId(req.applicant) == Id(userId) && CoerceId(req.job) == Id(jobId)
      && req.coverLetter.GetOr("") == form.coverLetter
      && req.phone.GetOr("") == form.phone
      && req.linkedin.GetOr("") == form.linkedin
  {
    ApplyPage.ApplicationFieldsRead(jobId, userId, form);
    ParseStrictIntReadsIntString(userId);
    ParseStrictIntReadsIntString(jobId);
  }

  /** Checking the route of a job id asks whether some entry is for that job. */
  lemma AppliedToRoute(entries: seq<AppEntry>, jobId: int)
    ensures ApplyPage.HasApplied(entries, IntString(jobId)) <==> exists e :: e in entries && e.job.id == jobId
  {
    ParseIntReadsIntString(jobId, []);
    assert IntString(jobId) + [] == IntString(jobId);
    if exists e :: e in entries && e.job.id == jobId {
      var e :| e in entries && e.job.id == jobId;
      var i :| 0 <= i < |entries| && entries[i] == e;
      assert ParseInt(IntString(jobId)) == Some(entries[i].job.id);
    }
  }

  /**
   * The page's "already applied?" check over the server's history agrees
   * with the store: the job named by `/apply/{id}` is marked applied exactly
   * when the user has an application for it.
   */
  lemma ReconciliationMatchesStore(jobs: seq<Job>, apps: seq<Application>, uid: int, jobId: int, origin: string)
    requires JobsResolve(jobs, apps)
    ensures ApplyPage.HasApplied(HistoryOf(jobs, apps, uid, origin), IntString(jobId)) <==> HasApplication(apps, uid, jobId)
  {
    var h := HistoryOf(jobs, apps, uid, origin);
    AppliedToRoute(h, jobId);
    if exists e :: e in h && e.job.id == jobId {
      var e :| e in h && e.job.id == jobId;
      HistoryOnlyMine(jobs, apps, uid, origin);
      var a :| a in apps && a.applicant == uid && e.id == a.id && e.job.id == a.job && ParseStatus(e.status) == Some(a.status);
      assert Pair(a) == (uid, jobId);
    }
    if HasApplication(apps, uid, jobId) {
      var a :| a in apps && Pair(a) == (uid, jobId);
      HistoryAllMine(jobs, apps, uid, origin);
    }
  }

  /**
   * When the page marks a job applied, a submission of the form for it is
   * refused by the server with 400, so a stale page cannot create a second
   * application.
   */
  lemma AppliedPageSubmissionRefused(db_users: map<int, User>, jobs: seq<Job>, apps: seq<Application>,
                                     uid: int, jobId: int, origin: string, form: ApplyPage.Form, resume: Option<StoredFile>)
    requires JobsResolve(jobs, apps) && uid in db_users && FindJob(jobs, jobId).Some?
    requires ApplyPage.HasApplied(HistoryOf(jobs, apps, uid, origin), IntString(jobId))
    ensures var req := ApplyRequestOf(ApplyPage.ApplicationFields(jobId, uid, form), resume);
      DecideApplication(db_users, jobs, apps, req.applicant, req.job) == Refuse(BadRequest, "You have already applied for this job")
  {
    ReconciliationMatchesStore(jobs, apps, uid, jobId, origin);
    ApplyFormReadByServer(jobId, uid, form, resume);
  }

  /** A job as the listing renders it in JSON. */
  function JobJson(d: JobData): Json {
    JObject(map[
      "id" := JNumber(d.id), "created_by" := JString(d.createdBy), "title" := JString(d.title),
      "About" := (if d.about.Some? then JString(d.about.value) else JNull),
      "description" := JString(d.description), "salary_range" := JString(d.salaryRange),
      "company" := JString(d.company), "location" := JString(d.location), "posted_at" := JNumber(d.postedAt)])
  }

  /** A serialised job's text fields are strings or `null`, so its card renders. */
  lemma JobJsonRenders(d: JobData)
    ensures JoblistPage.CardRenders(JobJson(d))
  {
  }

  /** `job_list`'s body in JSON: the jobs under `data`. */
  function ListingJson(jobs: seq<JobData>): Json {
    JObject(map["data" := JArray(seq(|jobs|, i requires 0 <= i < |jobs| => JobJson(jobs[i])))])
  }

  /**
   * The job list page keeps every job of `job_list`'s `data` array; each
   * card links to `/apply/{id}`, from which the apply page's `parseInt`
   * reads the id back, and `job_detail` for that id answers with exactly
   * the listed job.
   */
  lemma JobListRoundTrip(users: map<int, User>, jobs: seq<Job>, i: int)
    requires Consistent(users, jobs, []) && 0 <= i < |jobs|
    ensures var listed := JobList(users, jobs).body.jobs;
      var kept := JoblistPage.Normalize(ListingJson(listed));
      && kept.Some? && |kept.value| == |jobs|
      && JoblistPage.JobLink(kept.value[i]) == "/apply/" + IntString(jobs[i].id)
      && JoblistPage.Render(kept.value).JobCards?
      && ParseInt(IntString(jobs[i].id)) == Some(jobs[i].id)
      && JobDetailView(users, jobs, jobs[i].id) == HttpResponse(Views.Ok, JobDetail(listed[i]))
  {
    var listed := JobList(users, jobs).body.jobs;
    var kept := JoblistPage.Normalize(ListingJson(listed));
    assert kept.value[i] == JobJson(listed[i]);
    forall k | 0 <= k < |kept.value| ensures JoblistPage.CardRenders(kept.value[k]) {
      assert kept.value[k] == JobJson(listed[k]);
      JobJsonRenders(listed[k]);
    }
    JoblistPage.NumberIdLink(kept.value[i], jobs[i].id);
    ParseIntReadsIntString(jobs[i].id, []);
    assert IntString(jobs[i].id) + [] == IntString(jobs[i].id);
    DetailAgreesWithList(users, jobs, i);
  }

  /**
   * A card on the applications page links to a route whose `parseInt` is
   * the job's id, which the apply page then finds in the same history.
   */
  lemma ApplicationCardOpensAppliedJob(entries: seq<AppEntry>, i: int)
    requires 0 <= i < |entries|
    ensures var link := ApplicationsPage.CardFor(entries[i]).link;
      ApplyPage.HasApplied(entries, link[7..])
  {
    ApplicationsPage.CardLinkNamesJob(entries[i]);
  }
}
