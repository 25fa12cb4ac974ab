/** The Django models: `Job`, `Application` and the users they refer to. */
module Models {
  import opened Wrappers

  /** `max_length` of the status field. */
  const StatusMaxLength := 20

  /** A `django.contrib.auth` user; the password is kept as given (hashing is not modelled). */
  datatype User = User(
    id: int, username: string, email: string, password: string,
    firstName: string, lastName: string, isSuperuser: bool)

  /** A job posting; `createdBy` is the id of the user who created it. */
  datatype Job = Job(
    id: int, title: string, about: Option<string>, description: string, salaryRange: string,
    company: string, location: string, postedAt: int, createdBy: int)

  /** The four `status_choices` of an application. */
  datatype Status = Pending | Shortlisted | Rejected | Accepted

  /** The value stored for a status. */
  function StatusValue(s: Status): string {
    match s
    case Pending => "pending"
    case Shortlisted => "shortlisted"
    case Rejected => "rejected"
    case Accepted => "accepted"
  }

  /** The human-readable label of a status, which `get_status_display` shows. */
  function StatusLabel(s: Status): string {
    match s
    case Pending => "Pending"
    case Shortlisted => "Shortlisted"
    case Rejected => "Rejected"
    case Accepted => "Accepted"
  }

  /** The status a new application gets when none is given. */
  const DefaultStatus: Status := Pending

  /** Validation of a stored value against `status_choices`. */
  function ParseStatus(v: string): Option<Status> {
    if v == "pending" then Some(Pending)
    else if v == "shortlisted" then Some(Shortlisted)
    else if v == "rejected" then Some(Rejected)
    else if v == "accepted" then Some(Accepted)
    else None
  }

  /**
   * The accepted values are exactly the four choices: each choice's value is
   * accepted as that choice, and whatever is accepted is the value of what
   * it is accepted as. Every value fits the field's `max_length`.
   */
  lemma StatusChoicesExact(s: Status, v: string)
    ensures ParseStatus(StatusValue(s)) == Some(s)
    ensures ParseStatus(v) == Some(s) ==> StatusValue(s) == v
    ensures 0 < |StatusValue(s)| <= StatusMaxLength
  {
  }

  /** An uploaded file: its storage name and the URL the storage gives it. */
  datatype StoredFile = StoredFile(name: string, url: string)

  /** Truthiness of a `FileField`: a file is present when it has a non-empty name. */
  predicate HasFile(f: Option<StoredFile>) { f.Some? && f.value.name != "" }

  /** An application of `applicant` (a user id) to `job` (a job id). */
  datatype Application = Application(
    id: int, applicant: int, status: Status, appliedAt: int, job: int,
    resume: Option<StoredFile>, coverLetter: string, phone: string, linkedin: string)

  /** `Job.__str__`. */
  function JobStr(j: Job): string { j.title }

  /** `Application.__str__`, given the application's applicant and job. */
  function ApplicationStr(applicant: User, job: Job): string {
    applicant.username + " - " + job.title
  }
}
