/**
 * The "My Applications" page: loading the signed-in user's applications
 * and rendering each as a card with a status badge and a link back to the
 * job.
 */
module ApplicationsPage {
  import opened Wrappers
  import opened Text
  import opened Wire
  import opened Models
  import opened AuthContext

  /** The page's state. */
  datatype PageState = PageState(applications: seq<AppEntry>, loading: bool, error: Option<string>)

  const InitialApplications := PageState([], true, None)

  const LoadFailedMessage := "Failed to load applications. Please try again later."

  /** The path the effect fetches; `None` without a user and a token. */
  function LoadRequest(user: Option<SessionUser>, token: Option<string>): (r: Option<string>)
    ensures r.Some? <==> user.Some? && Truthy(token)
    ensures r.Some? ==> r.value == "/applications/" + IntString(user.value.userId) + "/"
  {
    if user.None? || !Truthy(token) then None else Some("/applications/" + IntString(user.value.userId) + "/")
  }

  /**
   * The effect: nothing without a user and a token; otherwise the list
   * replaces the applications, or the error is set, and loading ends.
   */
  function LoadNext(s: PageState, user: Option<SessionUser>, token: Option<string>,
                    response: Response<seq<AppEntry>, MessageBody>): (r: PageState)
    ensures user.None? || !Truthy(token) ==> r == s
    ensures user.Some? && Truthy(token) ==> !r.loading
    ensures user.Some? && Truthy(token) && response.Ok? ==> r.applications == response.body && r.error == s.error
    ensures user.Some? && Truthy(token) && !response.Ok? ==> r.applications == s.applications && r.error == Some(LoadFailedMessage)
  {
    if user.None? || !Truthy(token) then s
    else match response
      case Ok(data) => s.(applications := data, loading := false)
      case NotOk(_) => s.(error := Some(LoadFailedMessage), loading := false)
      case NetworkError => s.(error := Some(LoadFailedMessage), loading := false)
  }

  const DefaultColor := "bg-gray-100 text-gray-800 border-gray-200"
  const DefaultIcon := "\U{1F4C4}"

  /** `getStatusColor`: the badge classes of a status value. */
  function StatusColor(status: string): (r: string)
    ensures status !in {"pending", "shortlisted", "accepted", "rejected"} ==> r == DefaultColor
  {
    match status
    case "pending" => "bg-yellow-100 text-yellow-800 border-yellow-200"
    case "shortlisted" => "bg-blue-100 text-blue-800 border-blue-200"
    case "accepted" => "bg-green-100 text-green-800 border-green-200"
    case "rejected" => "bg-red-100 text-red-800 border-red-200"
    case _ => DefaultColor
  }

  /** `getStatusIcon`: the badge icon of a status value. */
  function StatusIcon(status: string): (r: string)
    ensures status !in {"pending", "shortlisted", "accepted", "rejected"} ==> r == DefaultIcon
  {
    match status
    case "pending" => "\U{23F3}"
    case "shortlisted" => "\U{1F4CB}"
    case "accepted" => "\U{2705}"
    case "rejected" => "\U{274C}"
    case _ => DefaultIcon
  }

  /**
   * Each of the four statuses the server stores has its own colour and its
   * own icon, none of them the fallback; two different statuses never share
   * a colour or an icon.
   */
  lemma StatusBadgesDistinct(a: Status, b: Status)
    ensures StatusColor(StatusValue(a)) != DefaultColor && StatusIcon(StatusValue(a)) != DefaultIcon
    ensures a != b ==> StatusColor(StatusValue(a)) != StatusColor(StatusValue(b))
    ensures a != b ==> StatusIcon(StatusValue(a)) != StatusIcon(StatusValue(b))
  {
    BadgeNotFallback(a);
    if a != b {
      ColorsDistinct(a, b);
      IconsDistinct(a, b);
    }
  }

  /** A stored status never falls through to the fallback badge. */
  lemma BadgeNotFallback(a: Status)
    ensures StatusColor(StatusValue(a)) != DefaultColor && StatusIcon(StatusValue(a)) != DefaultIcon
  {
  }

  /** Two different statuses get different badge colours. */
  lemma ColorsDistinct(a: Status, b: Status)
    requires a != b
    ensures StatusColor(StatusValue(a)) != StatusColor(StatusValue(b))
  {
  }

  /** Two different statuses get different badge icons. */
  lemma IconsDistinct(a: Status, b: Status)
    requires a != b
    ensures StatusIcon(StatusValue(a)) != StatusIcon(StatusValue(b))
  {
  }

  /** One application card: badge, job title and the link to the job's page. */
  datatype Card = Card(key: int, icon: string, color: string, status: string, title: string, company: string, link: string)

  /** The link of a card: `/apply/` and the job's id. */
  function JobLink(jobId: int): string {
    "/apply/" + IntString(jobId)
  }

  function CardFor(e: AppEntry): (c: Card)
    ensures c.key == e.id && c.status == e.status && c.title == e.job.title && c.link == JobLink(e.job.id)
    ensures c.icon == StatusIcon(e.status) && c.color == StatusColor(e.status)
  {
    Card(e.id, StatusIcon(e.status), StatusColor(e.status), e.status, e.job.title, e.job.company, JobLink(e.job.id))
  }

  /** What the page renders below its heading. */
  datatype View = Spinner | ErrorText(message: string) | NoApplications | Cards(cards: seq<Card>)

  /** Loading wins over the error, the error over an empty list. */
  function Render(s: PageState): (v: View)
    ensures s.loading ==> v == Spinner
    ensures !s.loading && s.error.Some? ==> v == ErrorText(s.error.value)
    ensures v == NoApplications <==> !s.loading && s.error.None? && s.applications == []
    ensures v.Cards? ==> |v.cards| == |s.applications| && forall i :: 0 <= i < |v.cards| ==> v.cards[i] == CardFor(s.applications[i])
  {
    if s.loading then Spinner
    else if s.error.Some? then ErrorText(s.error.value)
    else if |s.applications| == 0 then NoApplications
    else Cards(seq(|s.applications|, i requires 0 <= i < |s.applications| => CardFor(s.applications[i])))
  }

  /** A card's link carries its job's id, and `parseInt` reads that id back from the route. */
  lemma CardLinkNamesJob(e: AppEntry)
    ensures var link := CardFor(e).link;
      |link| > 7 && link[..7] == "/apply/" && ParseInt(link[7..]) == Some(e.job.id)
  {
    var link := CardFor(e).link;
    assert link[7..] == IntString(e.job.id) + [];
    ParseIntReadsIntString(e.job.id, []);
  }

  /** The page's state and its load effect. */
  class ApplicationsPageModel {
    var applications: seq<AppEntry>
    var loading: bool
    var error: Option<string>

    function State(): PageState
      reads this
    {
      PageState(applications, loading, error)
    }

    constructor ()
      ensures State() == InitialApplications
    {
      applications := [];
      loading := true;
      error := None;
    }

    /** The effect; `request` is the path fetched, if any. */
    method Load(user: Option<SessionUser>, token: Option<string>, response: Response<seq<AppEntry>, MessageBody>)
      returns (request: Option<string>)
      modifies this
      ensures request == LoadRequest(user, token)
      ensures State() == LoadNext(old(State()), user, token, response)
    {
      if user.None? { return None; }
      if !Truthy(token) { return None; }
      request := Some("/applications/" + IntString(user.value.userId) + "/");
      match response {
        case Ok(data) =>
          applications := data;
          loading := false;
        case NotOk(_) =>
          error := Some(LoadFailedMessage);
          loading := false;
        case NetworkError =>
          error := Some(LoadFailedMessage);
          loading := false;
      }
    }
  }
}
