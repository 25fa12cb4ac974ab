/**
 * The shapes that cross the wire between the browser client and the Django
 * service: request outcomes as the client sees them, and the JSON bodies
 * the endpoints return.
 */
module Wire {
  import opened Wrappers

  /**
   * What a `fetch` produced, as the client code branches on it: a response
   * with `response.ok` and its parsed body, a response without `ok` and its
   * parsed body, or an exception (the request failed, or the body was not
   * JSON).
   */
  datatype Response<S, F> = Ok(body: S) | NotOk(error: F) | NetworkError

  /** A DRF `errors` object: its entries in order, each field with its list of messages. */
  type FieldErrors = seq<(string, seq<string>)>

  /** A `{message, errors}` body; either key may be absent. */
  datatype MessageBody = MessageBody(message: Option<string>, errors: Option<FieldErrors>)

  /** The body of `GET /user/`. */
  datatype UserInfo = UserInfo(userId: int, username: string, email: string, firstName: string, lastName: string)

  /** The body of a successful `POST /login/`. */
  datatype LoginBody = LoginBody(message: Option<string>, userId: int, username: string, email: string, access: string, refresh: string)

  /** A job as `JobsSerializer` renders it; `createdBy` is the creator's username. */
  datatype JobData = JobData(
    id: int, createdBy: string, title: string, about: Option<string>, description: string,
    salaryRange: string, company: string, location: string, postedAt: int)

  /** The job summary nested in each entry of `GET /applications/{id}/`. */
  datatype JobSummary = JobSummary(
    id: int, title: string, company: string, location: string, salaryRange: string,
    about: Option<string>, postedAt: int)

  /** One entry of `GET /applications/{id}/`. */
  datatype AppEntry = AppEntry(
    id: int, status: string, appliedAt: int, resume: Option<string>, coverLetter: string,
    phone: string, linkedin: string, job: JobSummary)

  /** A JSON value as `response.json()` yields it. */
  datatype Json =
    | JNull
    | JBool(b: bool)
    | JNumber(n: int)
    | JString(s: string)
    | JArray(items: seq<Json>)
    | JObject(fields: map<string, Json>)
}
