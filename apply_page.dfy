/**
 * The page for one job (`/apply/:jobId`): loading the job and whether the
 * user already applied, the application form, and submitting it.
 */
module ApplyPage {
  import opened Wrappers
  import opened Text
  import opened Wire
  import opened AuthContext

  /** The job as the page holds it; the posting date stays a timestamp here. */
  datatype JobView = JobView(
    id: int, title: string, company: string, location: string, postedAt: int, salary: string,
    description: string, about: Option<string>, fullDescription: string, benefits: seq<string>, tags: seq<string>)

  const Benefits := ["Health Insurance", "Remote Work", "401k Match", "Professional Development", "Flexible Hours"]
  const Tags := ["Figma", "HTML", "JavaScript", "Web Development", "Full-time"]

  /** The page's copy of a `/jobs/{id}/` body: the description twice, fixed benefits and tags. */
  function JobViewOf(d: JobData): (v: JobView)
    ensures v.id == d.id && v.title == d.title && v.company == d.company && v.location == d.location
    ensures v.salary == d.salaryRange && v.about == d.about
    ensures v.description == v.fullDescription == d.description
    ensures v.benefits == Benefits && v.tags == Tags
  {
    JobView(d.id, d.title, d.company, d.location, d.postedAt, d.salaryRange, d.description, d.about, d.description, Benefits, Tags)
  }

  /** A file picked in the resume input. */
  datatype UploadFile = UploadFile(name: string)

  /** `formData`: the picked resume and three text inputs. */
  datatype Form = Form(resume: Option<UploadFile>, coverLetter: string, phone: string, linkedin: string)

  const EmptyForm := Form(None, "", "", "")

  /** A value appended to a `FormData`: text, or a file. */
  datatype FormValue = TextValue(text: string) | FileValue(file: UploadFile)

  /** The value a multipart form holds for `name`: the last one appended, as Django's `QueryDict.get` reads it. */
  function FieldValue(fields: seq<(string, FormValue)>, name: string): (r: Option<FormValue>)
    decreases |fields|
  {
    if fields == [] then None
    else if fields[|fields| - 1].0 == name then Some(fields[|fields| - 1].1)
    else FieldValue(fields[..|fields| - 1], name)
  }

  /**
   * A name reads a value appended under it, and no value at all exactly when
   * nothing was appended under it; a later entry wins over an earlier one.
   */
  lemma {:induction false} FieldValueMeaning(fields: seq<(string, FormValue)>, name: string)
    ensures FieldValue(fields, name).Some? ==>
      exists i :: 0 <= i < |fields| && fields[i] == (name, FieldValue(fields, name).value)
        && forall j :: i < j < |fields| ==> fields[j].0 != name
    ensures FieldValue(fields, name).None? <==> forall i :: 0 <= i < |fields| ==> fields[i].0 != name
    decreases |fields|
  {
    if fields != [] {
      var init := fields[..|fields| - 1];
      FieldValueMeaning(init, name);
      if fields[|fields| - 1].0 != name {
        if FieldValue(init, name).Some? {
          var i :| 0 <= i < |init| && init[i] == (name, FieldValue(init, name).value)
            && forall j :: i < j < |init| ==> init[j].0 != name;
          assert fields[i] == init[i];
        }
        assert forall i :: 0 <= i < |init| ==> fields[i] == init[i];
      }
    }
  }

  /** The page's state. */
  datatype PageState = PageState(
    isApplied: bool, job: Option<JobView>, loading: bool, error: Option<string>,
    showForm: bool, form: Form)

  const InitialPage := PageState(false, None, true, None, false, EmptyForm)

  const LoadErrorMessage := "Failed to load job details. Is the backend running on port 8000?"

  /**
   * `applications.some(app => app.job.id === parseInt(jobId))`: whether an
   * entry is for the job named by the route parameter; `parseInt` giving
   * NaN matches nothing.
   */
  function HasApplied(entries: seq<AppEntry>, routeId: string): (r: bool)
    ensures r <==> exists i :: 0 <= i < |entries| && ParseInt(routeId) == Some(entries[i].job.id)
    ensures ParseInt(routeId).None? ==> !r
    decreases |entries|
  {
    if entries == [] then false
    else ParseInt(routeId) == Some(entries[0].job.id) || HasApplied(entries[1..], routeId)
  }

  /** The paths the load effect fetches, in order; none without a user and a token. */
  function LoadRequests(routeId: string, user: Option<SessionUser>, token: Option<string>): (r: seq<string>)
    ensures |r| == 0 || |r| == 2
    ensures r != [] <==> user.Some? && Truthy(token)
  {
    if user.None? || !Truthy(token) then []
    else ["/jobs/" + routeId + "/", "/applications/" + IntString(user.value.userId) + "/"]
  }

  /**
   * The load effect: nothing happens without a user and a token. The job
   * request's failure sets the error; its success stores the job. The
   * applications request only ever sets `isApplied`; its failure is only
   * logged, so it never rejects. `Promise.all` therefore ends loading once
   * both succeed, or as soon as the job request fails; in that case the
   * applications request still settles afterwards and sets `isApplied`.
   * Taken as one step with both outcomes known, the final state is the same.
   */
  function LoadNext(s: PageState, routeId: string, user: Option<SessionUser>, token: Option<string>,
                    jobResponse: Response<JobData, MessageBody>,
                    appsResponse: Response<seq<AppEntry>, MessageBody>): (r: PageState)
    ensures user.None? || !Truthy(token) ==> r == s
    ensures user.Some? && Truthy(token) ==>
      && !r.loading && r.showForm == s.showForm && r.form == s.form
      && (jobResponse.Ok? ==> r.job == Some(JobViewOf(jobResponse.body)) && r.error == s.error)
      && (!jobResponse.Ok? ==> r.job == s.job && r.error == Some(LoadErrorMessage))
      && r.isApplied == (if appsResponse.Ok? then HasApplied(appsResponse.body, routeId) else s.isApplied)
  {
    if user.None? || !Truthy(token) then s
    else
      var withJob := if jobResponse.Ok? then s.(job := Some(JobViewOf(jobResponse.body))) else s;
      var withApplied :=
        if appsResponse.Ok? then withJob.(isApplied := HasApplied(appsResponse.body, routeId)) else withJob;
      if jobResponse.Ok? then withApplied.(loading := false)
      else withApplied.(error := Some(LoadErrorMessage), loading := false)
  }

  /** `if (cond) formData.append(name, value)`: the entry goes last, and now decides what its name reads. */
  function AppendIf(fields: seq<(string, FormValue)>, cond: bool, entry: (string, FormValue)): seq<(string, FormValue)> {
    if cond then fields + [entry] else fields
  }

  /** A conditional append changes what exactly one name reads, and only when its condition holds. */
  lemma AppendIfRead(fields: seq<(string, FormValue)>, cond: bool, entry: (string, FormValue), name: string)
    ensures FieldValue(AppendIf(fields, cond, entry), name) == if cond && entry.0 == name then Some(entry.1) else FieldValue(fields, name)
  {
    if cond {
      assert (fields + [entry])[..|fields|] == fields;
    }
  }

  /**
   * The fields `handleApply` sends: the job and the applicant, then each of
   * resume, cover letter, phone and LinkedIn only when it is set.
   */
  function ApplicationFields(jobId: int, userId: int, form: Form): seq<(string, FormValue)> {
    var base := [("job", TextValue(IntString(jobId))), ("applicant", TextValue(IntString(userId)))];
    var withResume := AppendIf(base, form.resume.Some?, ("resume", FileValue(form.resume.GetOr(UploadFile("")))));
    var withCover := AppendIf(withResume, form.coverLetter != "", ("cover_letter", TextValue(form.coverLetter)));
    var withPhone := AppendIf(withCover, form.phone != "", ("phone", TextValue(form.phone)));
    AppendIf(withPhone, form.linkedin != "", ("linkedin", TextValue(form.linkedin)))
  }

  /**
   * What the server reads from the sent fields: the job and applicant ids,
   * and each optional field exactly when the form has it set.
   */
  lemma ApplicationFieldsRead(jobId: int, userId: int, form: Form)
    ensures var f := ApplicationFields(jobId, userId, form);
      && FieldValue(f, "job") == Some(TextValue(IntString(jobId)))
      && FieldValue(f, "applicant") == Some(TextValue(IntString(userId)))
      && FieldValue(f, "resume") == (if form.resume.Some? then Some(FileValue(form.resume.value)) else None)
      && FieldValue(f, "cover_letter") == (if form.coverLetter != "" then Some(TextValue(form.coverLetter)) else None)
      && FieldValue(f, "phone") == (if form.phone != "" then Some(TextValue(form.phone)) else None)
      && FieldValue(f, "linkedin") == (if form.linkedin != "" then Some(TextValue(form.linkedin)) else None)
  {
    FieldReadThroughLayers(jobId, userId, form, "job");
    FieldReadThroughLayers(jobId, userId, form, "applicant");
    FieldReadThroughLayers(jobId, userId, form, "resume");
    FieldReadThroughLayers(jobId, userId, form, "cover_letter");
    FieldReadThroughLayers(jobId, userId, form, "phone");
    FieldReadThroughLayers(jobId, userId, form, "linkedin");
  }

  /** One name read from the sent fields: the optional layer that set it, else the fixed field of that name, else nothing. */
  lemma FieldReadThroughLayers(jobId: int, userId: int, form: Form, name: string)
    ensures FieldValue(ApplicationFields(jobId, userId, form), name) ==
      if name == "linkedin" && form.linkedin != "" then Some(TextValue(form.linkedin))
      else if name == "phone" && form.phone != "" then Some(TextValue(form.phone))
      else if name == "cover_letter" && form.coverLetter != "" then Some(TextValue(form.coverLetter))
      else if name == "resume" && form.resume.Some? then Some(FileValue(form.resume.value))
      else if name == "job" then Some(TextValue(IntString(jobId)))
      else if name == "applicant" then Some(TextValue(IntString(userId)))
      else None
  {
    var base := [("job", TextValue(IntString(jobId))), ("applicant", TextValue(IntString(userId)))];
    BaseFieldsRead(base);
    var withResume := AppendIf(base, form.resume.Some?, ("resume", FileValue(form.resume.GetOr(UploadFile("")))));
    var withCover := AppendIf(withResume, form.coverLetter != "", ("cover_letter", TextValue(form.coverLetter)));
    var withPhone := AppendIf(withCover, form.phone != "", ("phone", TextValue(form.phone)));
    var f := AppendIf(withPhone, form.linkedin != "", ("linkedin", TextValue(form.linkedin)));
    AppendIfRead(base, form.resume.Some?, ("resume", FileValue(form.resume.GetOr(UploadFile("")))), name);
    AppendIfRead(withResume, form.coverLetter != "", ("cover_letter", TextValue(form.coverLetter)), name);
    AppendIfRead(withCover, form.phone != "", ("phone", TextValue(form.phone)), name);
    AppendIfRead(withPhone, form.linkedin != "", ("linkedin", TextValue(form.linkedin)), name);
  }

  /** The two fixed fields read their values, and no optional name is among them. */
  lemma BaseFieldsRead(base: seq<(string, FormValue)>)
    requires |base| == 2 && base[0].0 == "job" && base[1].0 == "applicant"
    ensures FieldValue(base, "job") == Some(base[0].1) && FieldValue(base, "applicant") == Some(base[1].1)
    ensures forall name :: name != "job" && name != "applicant" ==> FieldValue(base, name).None?
  {
    assert base[..1] == [base[0]] && base[..1][..0] == [];
    forall name | name != "job" && name != "applicant" ensures FieldValue(base, name).None? {
      assert FieldValue(base, name) == FieldValue(base[..1], name) == FieldValue(base[..1][..0], name);
    }
  }

  /** The outcome of `handleApply`: what was sent, if anything, and the alert shown, if any. */
  datatype ApplyOutcome = ApplyOutcome(sent: Option<seq<(string, FormValue)>>, alert: Option<string>)

  const ApplySuccessAlert := "Application submitted successfully!"
  const ApplyFailedAlert := "Failed to submit application. Check console for details."

  /**
   * `handleApply`: nothing without a job and a user; an alert without a
   * token; otherwise the form is posted. Success marks the job applied and
   * closes the form; a refusal alerts the server's message or
   * 'Application failed'; each outcome alerts its own text.
   */
  function HandleApplyNext(s: PageState, user: Option<SessionUser>, token: Option<string>,
                           response: Response<(), MessageBody>): (r: (PageState, ApplyOutcome))
    ensures r.1.sent.Some? <==> s.job.Some? && user.Some? && Truthy(token)
    ensures r.1.sent.Some? ==> r.1.sent.value == ApplicationFields(s.job.value.id, user.value.userId, s.form)
    ensures !(r.1.sent.Some? && response.Ok?) ==> r.0 == s
    ensures r.1.sent.Some? && response.Ok? ==> r.0 == s.(isApplied := true, showForm := false)
    ensures s.job.None? || user.None? ==> r.1.alert.None?
    ensures s.job.Some? && user.Some? && !Truthy(token) ==> r.1.alert == Some("Please login again")
    ensures r.1.sent.Some? && response.Ok? ==> r.1.alert == Some(ApplySuccessAlert)
    ensures r.1.sent.Some? && response.NotOk? ==> r.1.alert == Some(OrElse(response.error.message, "Application failed"))
    ensures r.1.sent.Some? && response.NetworkError? ==> r.1.alert == Some(ApplyFailedAlert)
  {
    if s.job.None? || user.None? then (s, ApplyOutcome(None, None))
    else if !Truthy(token) then (s, ApplyOutcome(None, Some("Please login again")))
    else
      var sent := Some(ApplicationFields(s.job.value.id, user.value.userId, s.form));
      match response
      case Ok(_) => (s.(isApplied := true, showForm := false), ApplyOutcome(sent, Some(ApplySuccessAlert)))
      case NotOk(body) => (s, ApplyOutcome(sent, Some(OrElse(body.message, "Application failed"))))
      case NetworkError => (s, ApplyOutcome(sent, Some(ApplyFailedAlert)))
  }

  /** What the page renders: a spinner, an error text, nothing, or the job with or without the Apply button. */
  datatype View = Spinner | ErrorText(message: string) | Blank | JobPage(applyOffered: bool, formShown: bool)

  /** Loading wins over the error, the error over a missing job. */
  function Render(s: PageState): (v: View)
    ensures s.loading ==> v == Spinner
    ensures !s.loading && s.error.Some? ==> v == ErrorText(s.error.value)
    ensures v.JobPage? <==> !s.loading && s.error.None? && s.job.Some?
    ensures v.JobPage? ==> (v.applyOffered <==> !s.isApplied) && (v.formShown <==> s.showForm)
  {
    if s.loading then Spinner
    else if s.error.Some? then ErrorText(s.error.value)
    else if s.job.None? then Blank
    else JobPage(!s.isApplied, s.showForm)
  }

  /** Once an application succeeds, the page no longer offers to apply. */
  lemma AppliedHidesApply(s: PageState, user: Option<SessionUser>, token: Option<string>)
    requires s.job.Some? && user.Some? && Truthy(token)
    ensures var t := HandleApplyNext(s, user, token, Ok(())).0;
      t.isApplied && !t.showForm && (Render(t).JobPage? ==> !Render(t).applyOffered)
  {
  }

  /** A page whose job failed to load shows the load error and never the job. */
  lemma FailedJobShowsError(routeId: string, user: SessionUser, token: string,
                            jobResponse: Response<JobData, MessageBody>, appsResponse: Response<seq<AppEntry>, MessageBody>)
    requires token != "" && !jobResponse.Ok?
    ensures Render(LoadNext(InitialPage, routeId, Some(user), Some(token), jobResponse, appsResponse)) == ErrorText(LoadErrorMessage)
  {
  }

  /** The page's state and the effects and handlers that change it. */
  class ApplyPageModel {
    const routeId: string
    var isApplied: bool
    var job: Option<JobView>
    var loading: bool
    var error: Option<string>
    var showForm: bool
    var form: Form

    function State(): PageState
      reads this
    {
      PageState(isApplied, job, loading, error, showForm, form)
    }

    constructor (jobId: string)
      ensures routeId == jobId && State() == InitialPage
    {
      routeId := jobId;
      isApplied := false;
      job := None;
      loading := true;
      error := None;
      showForm := false;
      form := EmptyForm;
    }

    /** The load effect; `requests` are the paths fetched. */
    method Load(user: Option<SessionUser>, token: Option<string>,
                jobResponse: Response<JobData, MessageBody>, appsResponse: Response<seq<AppEntry>, MessageBody>)
      returns (requests: seq<string>)
      modifies this
      ensures requests == LoadRequests(routeId, user, token)
      ensures State() == LoadNext(old(State()), routeId, user, token, jobResponse, appsResponse)
    {
      if user.None? { return []; }
      if !Truthy(token) { return []; }
      ghost var before := State();
      requests := ["/jobs/" + routeId + "/", "/applications/" + IntString(user.value.userId) + "/"];
      var jobFailed := false;
      match jobResponse {
        case Ok(data) => job := Some(JobViewOf(data));
        case NotOk(_) => jobFailed := true;
        case NetworkError => jobFailed := true;
      }
      ghost var withJob := State();
      assert withJob == if jobResponse.Ok? then before.(job := Some(JobViewOf(jobResponse.body))) else before;
      match appsResponse {
        case Ok(applications) => isApplied := HasApplied(applications, routeId);
        case NotOk(_) =>
        case NetworkError =>
      }
      ghost var withApplied := State();
      assert withApplied == if appsResponse.Ok? then withJob.(isApplied := HasApplied(appsResponse.body, routeId)) else withJob;
      if jobFailed {
        error := Some(LoadErrorMessage);
      }
      loading := false;
      assert State() == if jobResponse.Ok? then withApplied.(loading := false)
        else withApplied.(error := Some(LoadErrorMessage), loading := false);
    }

    /** The Apply button's handler. */
    method OpenForm()
      modifies this
      ensures State() == old(State()).(showForm := true)
    {
      showForm := true;
    }

    /** The close and Cancel buttons' handler. */
    method CloseForm()
      modifies this
      ensures State() == old(State()).(showForm := false)
    {
      showForm := false;
    }

    /** The inputs' `onChange`: one field of the form replaced. */
    method EditForm(f: Form)
      modifies this
      ensures State() == old(State()).(form := f)
    {
      form := f;
    }

    /** `handleApply`, building the form data step by step. */
    method HandleApply(user: Option<SessionUser>, token: Option<string>, response: Response<(), MessageBody>)
      returns (outcome: ApplyOutcome)
      modifies this
      ensures (State(), outcome) == HandleApplyNext(old(State()), user, token, response)
    {
      if job.None? || user.None? {
        return ApplyOutcome(None, None);
      }
      if !Truthy(token) {
        return ApplyOutcome(None, Some("Please login again"));
      }
      var fields := [("job", TextValue(IntString(job.value.id))), ("applicant", TextValue(IntString(user.value.userId)))];
      if form.resume.Some? { fields := fields + [("resume", FileValue(form.resume.value))]; }
      if form.coverLetter != "" { fields := fields + [("cover_letter", TextValue(form.coverLetter))]; }
      if form.phone != "" { fields := fields + [("phone", TextValue(form.phone))]; }
      if form.linkedin != "" { fields := fields + [("linkedin", TextValue(form.linkedin))]; }
      match response {
        case Ok(_) =>
          isApplied := true;
          showForm := false;
          outcome := ApplyOutcome(Some(fields), Some(ApplySuccessAlert));
        case NotOk(data) =>
          outcome := ApplyOutcome(Some(fields), Some(OrElse(data.message, "Application failed")));
        case NetworkError =>
          outcome := ApplyOutcome(Some(fields), Some(ApplyFailedAlert));
      }
    }
  }
}
