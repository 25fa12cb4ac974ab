/**
 * `AuthProvider`: the signed-in user, the loading flag and the two JWT
 * entries of `localStorage`, and the four actions that change them. Each
 * request's outcome is a parameter; each action is a step function on a
 * `Session` value, and the provider's methods are proved to take exactly
 * that step.
 */
module AuthContext {
  import opened Wrappers
  import opened Text
  import opened Wire

  /**
   * The `user` object: `login` stores the id, username and email; `checkAuth`
   * stores the whole `/user/` body, names included.
   */
  datatype SessionUser = SessionUser(
    userId: int, username: string, email: string, firstName: Option<string>, lastName: Option<string>)

  /** The provider's state: React's `user` and `loading`, and `localStorage`'s two tokens. */
  datatype Session = Session(user: Option<SessionUser>, loading: bool, access: Option<string>, refresh: Option<string>)

  /** On mount there is no user and loading is on; `localStorage` keeps what an earlier visit stored. */
  function Initial(storedAccess: Option<string>, storedRefresh: Option<string>): (s: Session)
    ensures s.user.None? && s.loading && s.access == storedAccess && s.refresh == storedRefresh
  {
    Session(None, true, storedAccess, storedRefresh)
  }

  const NetworkErrorMessage := "Network error. Please try again."

  /** The user `checkAuth` stores from a `/user/` body. */
  function ProfileUser(info: UserInfo): SessionUser {
    SessionUser(info.userId, info.username, info.email, Some(info.firstName), Some(info.lastName))
  }

  /** The bearer token `checkAuth` sends to `/user/`; `None` when it sends nothing. */
  function CheckAuthRequest(s: Session): (r: Option<string>)
    ensures r.Some? <==> Truthy(s.access)
    ensures r.Some? ==> r == s.access
  {
    if Truthy(s.access) then s.access else None
  }

  /**
   * `checkAuth`: without a token the user is cleared; a valid token yields
   * the profile; a rejected token is removed together with the refresh
   * token; a failed request clears the user but keeps the tokens. Loading
   * always ends.
   */
  function CheckAuthNext(s: Session, response: Response<UserInfo, MessageBody>): (r: Session)
    ensures !r.loading
    ensures r.user.Some? <==> Truthy(s.access) && response.Ok?
    ensures r.user.Some? ==> r.user.value == ProfileUser(response.body)
    ensures Truthy(s.access) && response.NotOk? ==> r.access.None? && r.refresh.None?
    ensures !(Truthy(s.access) && response.NotOk?) ==> r.access == s.access && r.refresh == s.refresh
  {
    if !Truthy(s.access) then s.(user := None, loading := false)
    else match response
      case Ok(info) => s.(user := Some(ProfileUser(info)), loading := false)
      case NotOk(_) => Session(None, false, None, None)
      case NetworkError => s.(user := None, loading := false)
  }

  /** What `login` resolves to. */
  datatype LoginResult = LoginResult(success: bool, message: Option<string>)

  /** The new session and the result of one `login`. */
  datatype LoginStep = LoginStep(session: Session, result: LoginResult)

  /**
   * `login`: a successful response stores both tokens and the user's id,
   * username and email and reports the server's message; a refused one
   * reports the server's message or 'Login failed'; a failed request
   * reports a network error. Only success changes the session.
   */
  function LoginNext(s: Session, response: Response<LoginBody, MessageBody>): (r: LoginStep)
    ensures r.result.success <==> response.Ok?
    ensures response.Ok? ==>
      && r.session.access == Some(response.body.access) && r.session.refresh == Some(response.body.refresh)
      && r.session.user == Some(SessionUser(response.body.userId, response.body.username, response.body.email, None, None))
      && r.session.loading == s.loading
      && r.result.message == response.body.message
    ensures !response.Ok? ==> r.session == s && r.result.message.Some?
    ensures response.NotOk? ==> r.result.message == Some(OrElse(response.error.message, "Login failed"))
    ensures response.NetworkError? ==> r.result.message == Some(NetworkErrorMessage)
  {
    match response
    case Ok(body) =>
      LoginStep(
        s.(access := Some(body.access), refresh := Some(body.refresh),
           user := Some(SessionUser(body.userId, body.username, body.email, None, None))),
        LoginResult(true, body.message))
    case NotOk(body) => LoginStep(s, LoginResult(false, Some(OrElse(body.message, "Login failed"))))
    case NetworkError => LoginStep(s, LoginResult(false, Some(NetworkErrorMessage)))
  }

  /** `logout`: whatever the request does, both tokens and the user are cleared. */
  function LogoutNext(s: Session): (r: Session)
    ensures r.user.None? && r.access.None? && r.refresh.None? && r.loading == s.loading
  {
    s.(user := None, access := None, refresh := None)
  }

  /** The JSON body `register` posts. */
  datatype RegisterPayload = RegisterPayload(
    username: string, email: string, password: string, password2: string, firstName: string, lastName: string)

  /** What `register` resolves to. */
  datatype RegisterResult = RegisterResult(success: bool, message: Option<string>, errors: Option<FieldErrors>)

  /**
   * `register`: success reports the server's message; a refusal reports the
   * server's message or 'Registration failed' and passes the server's
   * errors on; a failed request reports a network error and no errors.
   */
  function RegisterOutcome(response: Response<MessageBody, MessageBody>): (r: RegisterResult)
    ensures r.success <==> response.Ok?
    ensures response.Ok? ==> r == RegisterResult(true, response.body.message, None)
    ensures response.NotOk? ==>
      r.message == Some(OrElse(response.error.message, "Registration failed")) && r.errors == response.error.errors
    ensures response.NetworkError? ==> r == RegisterResult(false, Some(NetworkErrorMessage), None)
  {
    match response
    case Ok(body) => RegisterResult(true, body.message, None)
    case NotOk(body) => RegisterResult(false, Some(OrElse(body.message, "Registration failed")), body.errors)
    case NetworkError => RegisterResult(false, Some(NetworkErrorMessage), None)
  }

  /**
   * What the login and registration pages' form actions resolve to: the
   * message shown under the form, and the page navigated to afterwards.
   */
  datatype ActionOutcome = ActionOutcome(message: string, redirect: Option<string>)

  /** One call on the provider, with the outcome of the request it makes. */
  datatype Action =
    | CheckAuth(userResponse: Response<UserInfo, MessageBody>)
    | Login(loginResponse: Response<LoginBody, MessageBody>)
    | Logout
    | Register(registerResponse: Response<MessageBody, MessageBody>)

  /** The session after one action; `register` leaves it alone. */
  function Step(s: Session, a: Action): Session {
    match a
    case CheckAuth(response) => CheckAuthNext(s, response)
    case Login(response) => LoginNext(s, response).session
    case Logout => LogoutNext(s)
    case Register(_) => s
  }

  /** The session after a sequence of actions. */
  function Run(s: Session, actions: seq<Action>): Session
    decreases |actions|
  {
    if actions == [] then s else Run(Step(s, actions[0]), actions[1..])
  }

  /**
   * The invariant the provider keeps: the two tokens are stored and removed
   * together, and a signed-in user always has an access token stored.
   */
  predicate Coherent(s: Session) {
    && (s.access.Some? <==> s.refresh.Some?)
    && (s.user.Some? ==> s.access.Some?)
  }

  /** Every action keeps the session coherent. */
  lemma StepKeepsCoherent(s: Session, a: Action)
    requires Coherent(s)
    ensures Coherent(Step(s, a))
  {
  }

  /** Any sequence of actions from a coherent session ends in a coherent session. */
  lemma {:induction false} RunKeepsCoherent(s: Session, actions: seq<Action>)
    requires Coherent(s)
    ensures Coherent(Run(s, actions))
    decreases |actions|
  {
    if actions != [] {
      StepKeepsCoherent(s, actions[0]);
      RunKeepsCoherent(Step(s, actions[0]), actions[1..]);
    }
  }

  /** After the server rejects the token, the next `checkAuth` sends no request and finds no user. */
  lemma RejectedTokenNotResent(s: Session, body: MessageBody, next: Response<UserInfo, MessageBody>)
    requires Truthy(s.access)
    ensures var t := CheckAuthNext(s, NotOk(body));
      CheckAuthRequest(t) == None && CheckAuthNext(t, next).user.None?
  {
  }

  /** After `logout`, `checkAuth` sends no request and finds no user, whatever the server would say. */
  lemma LoggedOutStaysOut(s: Session, next: Response<UserInfo, MessageBody>)
    ensures CheckAuthRequest(LogoutNext(s)) == None
    ensures CheckAuthNext(LogoutNext(s), next).user.None?
  {
  }

  /** A session reached by any actions after `logout` is signed in only through a successful `login` or `checkAuth`. */
  lemma {:induction false} SignedInOnlyThroughServer(s: Session, actions: seq<Action>)
    requires s.user.None?
    requires forall i :: 0 <= i < |actions| ==> !(actions[i].Login? && actions[i].loginResponse.Ok?)
    requires forall i :: 0 <= i < |actions| ==> !(actions[i].CheckAuth? && actions[i].userResponse.Ok?)
    ensures Run(s, actions).user.None?
    decreases |actions|
  {
    if actions != [] {
      assert Step(s, actions[0]).user.None?;
      SignedInOnlyThroughServer(Step(s, actions[0]), actions[1..]);
    }
  }

  /** The provider: React state and the browser's `localStorage` entries. */
  class AuthProvider {
    var user: Option<SessionUser>
    var loading: bool
    var accessToken: Option<string>
    var refreshToken: Option<string>

    function State(): Session
      reads this
    {
      Session(user, loading, accessToken, refreshToken)
    }

    constructor (storedAccess: Option<string>, storedRefresh: Option<string>)
      ensures State() == Initial(storedAccess, storedRefresh)
    {
      user := None;
      loading := true;
      accessToken := storedAccess;
      refreshToken := storedRefresh;
    }

    /** `checkAuth`; `request` is the bearer token sent, `None` when nothing is sent. */
    method CheckAuth(response: Response<UserInfo, MessageBody>) returns (request: Option<string>)
      modifies this
      ensures request == CheckAuthRequest(old(State()))
      ensures State() == CheckAuthNext(old(State()), response)
    {
      var token := accessToken;
      if !Truthy(token) {
        user := None;
        loading := false;
        return None;
      }
      request := token;
      match response {
        case Ok(data) =>
          user := Some(ProfileUser(data));
        case NotOk(_) =>
          accessToken := None;
          refreshToken := None;
          user := None;
        case NetworkError =>
          user := None;
      }
      loading := false;
    }

    /** `login`: the credentials are posted as given. */
    method Login(username: string, password: string, response: Response<LoginBody, MessageBody>)
      returns (sent: (string, string), result: LoginResult)
      modifies this
      ensures sent == (username, password)
      ensures State() == LoginNext(old(State()), response).session
      ensures result == LoginNext(old(State()), response).result
    {
      sent := (username, password);
      match response {
        case Ok(data) =>
          accessToken := Some(data.access);
          refreshToken := Some(data.refresh);
          user := Some(SessionUser(data.userId, data.username, data.email, None, None));
          result := LoginResult(true, data.message);
        case NotOk(data) =>
          result := LoginResult(false, Some(OrElse(data.message, "Login failed")));
        case NetworkError =>
          result := LoginResult(false, Some(NetworkErrorMessage));
      }
    }

    /** `logout`. */
    method Logout()
      modifies this
      ensures State() == LogoutNext(old(State()))
    {
      accessToken := None;
      refreshToken := None;
      user := None;
    }

    /** `register`: the names default to ''; the session is not touched. */
    method Register(username: string, email: string, password: string, password2: string,
                    firstName: Option<string>, lastName: Option<string>,
                    response: Response<MessageBody, MessageBody>)
      returns (sent: RegisterPayload, result: RegisterResult)
      ensures sent == RegisterPayload(username, email, password, password2, firstName.GetOr(""), lastName.GetOr(""))
      ensures result == RegisterOutcome(response)
    {
      sent := RegisterPayload(username, email, password, password2, firstName.GetOr(""), lastName.GetOr(""));
      match response {
        case Ok(data) =>
          result := RegisterResult(true, data.message, None);
        case NotOk(data) =>
          result := RegisterResult(false, Some(OrElse(data.message, "Registration failed")), data.errors);
        case NetworkError =>
          result := RegisterResult(false, Some(NetworkErrorMessage), None);
      }
    }
  }
}
