/** The job list page: fetching `/jobs/` and rendering a card per job. */
module JoblistPage {
  import opened Wrappers
  import opened Text
  import opened Wire

  /**
   * The list the page keeps from a `/jobs/` body: the body itself when it is
   * an array, else its `results` array, else its `data` array, else an empty
   * list. A `null` body makes `data.results` throw: `None`, and the list is
   * left as it was.
   */
  function Normalize(data: Json): (r: Option<seq<Json>>)
    ensures r.None? <==> data.JNull?
    ensures data.JArray? ==> r == Some(data.items)
    ensures data.JObject? && "results" in data.fields && data.fields["results"].JArray? ==> r == Some(data.fields["results"].items)
    ensures (&& data.JObject? && !("results" in data.fields && data.fields["results"].JArray?)
             && "data" in data.fields && data.fields["data"].JArray?) ==> r == Some(data.fields["data"].items)
    ensures (&& !data.JNull? && !data.JArray?
             && !(data.JObject? && (("results" in data.fields && data.fields["results"].JArray?)
                                    || ("data" in data.fields && data.fields["data"].JArray?)))) ==> r == Some([])
  {
    match data
    case JNull => None
    case JArray(items) => Some(items)
    case JObject(fields) =>
      if "results" in fields && fields["results"].JArray? then Some(fields["results"].items)
      else if "data" in fields && fields["data"].JArray? then Some(fields["data"].items)
      else Some([])
    case _ => Some([])
  }

  /** JavaScript's text of a JSON value inside a template string; `null` in an array renders empty. */
  function TemplateText(j: Json): string
    decreases j
  {
    match j
    case JNull => "null"
    case JBool(b) => if b then "true" else "false"
    case JNumber(n) => IntString(n)
    case JString(s) => s
    case JArray(items) =>
      Join(",", seq(|items|, i requires 0 <= i < |items| => if items[i].JNull? then "" else TemplateText(items[i])))
    case JObject(_) => "[object Object]"
  }

  /** `/apply/${job.id}`: a missing id reads `undefined`. */
  function JobLink(job: Json): string {
    "/apply/" + (if job.JObject? && "id" in job.fields then TemplateText(job.fields["id"]) else "undefined")
  }

  /**
   * What the page renders in the list's place. `RenderFailed` is the
   * `TypeError` thrown while mapping the list, after which nothing renders.
   */
  datatype View = LoadingText | JobCards(links: seq<string>) | RenderFailed

  /**
   * Whether React accepts a JSON value as a child: an object is refused
   * ("Objects are not valid as a React child"), an array is accepted when
   * each of its items is, and anything else renders (`null` and booleans as
   * nothing).
   */
  predicate ReactChild(j: Json)
    decreases j
  {
    match j
    case JObject(_) => false
    case JArray(items) => forall i :: 0 <= i < |items| ==> ReactChild(items[i])
    case _ => true
  }

  /** The fields a job card places as children. */
  const CardTextFields: seq<string> := ["title", "company", "About", "location", "salary_range"]

  /**
   * Whether a job's card renders: `null` throws at `job.id`, and an object
   * job throws when one of its text fields is not a valid child. Any other
   * value reads its fields as `undefined`, which renders nothing.
   */
  predicate CardRenders(job: Json) {
    && job != JNull
    && (job.JObject? ==> forall k :: k in CardTextFields && k in job.fields ==> ReactChild(job.fields[k]))
  }

  /**
   * An empty list reads "Loading jobs..."; a list with a job whose card
   * throws renders nothing; otherwise one card per job, in order.
   */
  function Render(jobs: seq<Json>): (v: View)
    ensures v == LoadingText <==> jobs == []
    ensures v == RenderFailed <==> jobs != [] && exists i :: 0 <= i < |jobs| && !CardRenders(jobs[i])
    ensures v.JobCards? ==> |v.links| == |jobs| && forall i :: 0 <= i < |jobs| ==> v.links[i] == JobLink(jobs[i])
  {
    if |jobs| == 0 then LoadingText
    else if exists i :: 0 <= i < |jobs| && !CardRenders(jobs[i]) then RenderFailed
    else JobCards(seq(|jobs|, i requires 0 <= i < |jobs| => JobLink(jobs[i])))
  }

  /** A list holding `null`, or a job whose title is an object, renders nothing. */
  lemma NullOrObjectTitleFails(jobs: seq<Json>, i: int)
    requires 0 <= i < |jobs|
    requires jobs[i] == JNull || (jobs[i].JObject? && "title" in jobs[i].fields && jobs[i].fields["title"].JObject?)
    ensures Render(jobs) == RenderFailed
  {
    assert !CardRenders(jobs[i]) by {
      if jobs[i] != JNull {
        assert "title" in CardTextFields;
      }
    }
  }

  /** A job whose id is a number links to `/apply/` and that number. */
  lemma NumberIdLink(job: Json, id: int)
    requires job.JObject? && "id" in job.fields && job.fields["id"] == JNumber(id)
    ensures JobLink(job) == "/apply/" + IntString(id)
  {
  }

  /**
   * After a fetch that fails, or answers with a list that normalises to
   * nothing, the page still reads "Loading jobs...".
   */
  lemma EmptyOrFailedLooksLoading(response: Response<Json, MessageBody>)
    requires !response.Ok? || Normalize(response.body) == Some([])
    ensures Render(LoadNext([], response)) == LoadingText
  {
  }

  /** The effect's outcome for the list: replaced by the normalised body, or left alone. */
  function LoadNext(jobs: seq<Json>, response: Response<Json, MessageBody>): (r: seq<Json>)
    ensures response.Ok? && Normalize(response.body).Some? ==> r == Normalize(response.body).value
    ensures !(response.Ok? && Normalize(response.body).Some?) ==> r == jobs
  {
    if response.Ok? && Normalize(response.body).Some? then Normalize(response.body).value else jobs
  }

  /** The page's state and its effect. */
  class JoblistPageModel {
    var jobs: seq<Json>

    constructor ()
      ensures jobs == []
    {
      jobs := [];
    }

    /** The mount effect. */
    method Load(response: Response<Json, MessageBody>)
      modifies this
      ensures jobs == LoadNext(old(jobs), response)
    {
      match response {
        case Ok(data) =>
          if data.JNull? {
            return;
          }
          if data.JArray? {
            jobs := data.items;
          } else if data.JObject? && "results" in data.fields && data.fields["results"].JArray? {
            jobs := data.fields["results"].items;
          } else if data.JObject? && "data" in data.fields && data.fields["data"].JArray? {
            jobs := data.fields["data"].items;
          } else {
            jobs := [];
          }
        case NotOk(_) =>
        case NetworkError =>
      }
    }
  }
}
