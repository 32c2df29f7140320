/** frontend/src/contexts/AuthContext.tsx: the tab's session. It holds the current user and a
    loading flag, keeps the bearer token and the user's JSON under two keys of the local
    storage, revalidates a stored session once at start-up, and logs in, registers, logs out
    and replaces the user. Each operation is specified by a function on the session's value,
    and the provider's methods are proved to follow it; the backend's replies are parameters. */
module AuthContext {
  import opened Wrappers
  import opened UserApi

  /** The value the provider exposes, with the tab it lives in. */
  datatype Session = Session(user: Option<ClientUser>, isLoading: bool, world: World)

  /** `isAuthenticated = !!user`. */
  predicate IsAuthenticated(s: Session) {
    s.user.Some?
  }

  /** The state after an operation, and the message of the `Error` it throws, if any. */
  datatype Outcome = Outcome(session: Session, error: Option<string>)

  /** `error.response?.data?.detail || fallback`. */
  function Message(e: ApiError, fallback: string): (m: string)
    ensures Truthy(e.detail) ==> m == e.detail.value
    ensures !Truthy(e.detail) ==> m == fallback
  {
    OrElse(e.detail, fallback)
  }

  /** Both keys hold a non-empty value, so start-up asks the backend. */
  predicate HasStoredSession(storage: map<string, string>) {
    Truthy(Get(storage, TokenKey)) && Truthy(Get(storage, UserKey))
  }

  /** `initializeAuth`: without a stored token and user nothing is asked and nothing changes
      but the loading flag; otherwise `GET /users/me` decides: its user is adopted and stored,
      and any failure forgets the stored session. Loading ends in every case, and the session
      is authenticated afterwards only through a successful revalidation. */
  function Initialized(s: Session, reply: Reply<ClientUser>): (r: Session)
    ensures !r.isLoading
    ensures !HasStoredSession(s.world.storage) ==> r.world == s.world && r.user == s.user
    ensures HasStoredSession(s.world.storage) ==>
              r.world.sent == s.world.sent + [Outgoing(RequestFor(GetCurrentUser), s.world.storage)]
    ensures HasStoredSession(s.world.storage) && reply.Success? ==>
              r.user == Some(reply.data) && r.world.storage == s.world.storage[UserKey := Json(reply.data)]
    ensures HasStoredSession(s.world.storage) && reply.Failure? ==>
              r.user.None? && r.world.storage == Evict(s.world.storage)
    ensures r.user != s.user ==> HasStoredSession(s.world.storage) && (r.user.None? || r.user == Some(reply.data))
  {
    if HasStoredSession(s.world.storage) then
      var w := Exchange(s.world, RequestFor(GetCurrentUser), reply);
      if reply.Success? then
        Session(Some(reply.data), false, w.(storage := w.storage[UserKey := Json(reply.data)]))
      else
        Session(None, false, w.(storage := Evict(w.storage)))
    else s.(isLoading := false)
  }

  /** `login`: `POST /token`, the token stored, then `GET /users/me` with that token and the
      user stored and adopted. A failed step throws the backend's detail or 'Login failed' and
      leaves the in-memory user as it was; a token already stored stays stored when only the
      identity fetch fails, unless that failure is a 401. */
  function LoggedIn(s: Session, email: string, password: string, tokenReply: Reply<AuthResponse>, meReply: Reply<ClientUser>)
    : (r: Outcome)
    ensures !r.session.isLoading
    ensures r.error.None? <==> tokenReply.Success? && meReply.Success?
    ensures r.error.None? ==>
              r.session.user == Some(meReply.data) &&
              Get(r.session.world.storage, TokenKey) == Some(tokenReply.data.accessToken) &&
              Get(r.session.world.storage, UserKey) == Some(Json(meReply.data))
    ensures r.error.Some? ==> r.session.user == s.user
    ensures tokenReply.Failure? ==> r.error == Some(Message(tokenReply.error, "Login failed"))
    ensures tokenReply.Success? && meReply.Failure? ==> r.error == Some(Message(meReply.error, "Login failed"))
    ensures tokenReply.Success? && meReply.Failure? && !Unauthorized(meReply) ==>
              Get(r.session.world.storage, TokenKey) == Some(tokenReply.data.accessToken)
    ensures tokenReply.Success? ==>
              |r.session.world.sent| == |s.world.sent| + 2 &&
              r.session.world.sent[|s.world.sent| + 1].headers ==
                WithBearer(DefaultHeaders, Some(tokenReply.data.accessToken))
  {
    var w1 := Exchange(s.world, RequestFor(Login(email, password)), tokenReply);
    if tokenReply.Failure? then
      Outcome(s.(isLoading := false, world := w1), Some(Message(tokenReply.error, "Login failed")))
    else
      var w2 := w1.(storage := w1.storage[TokenKey := tokenReply.data.accessToken]);
      var w3 := Exchange(w2, RequestFor(GetCurrentUser), meReply);
      if meReply.Failure? then
        Outcome(s.(isLoading := false, world := w3), Some(Message(meReply.error, "Login failed")))
      else
        Outcome(Session(Some(meReply.data), false, w3.(storage := w3.storage[UserKey := Json(meReply.data)])), None)
  }

  /** `register`: `POST /users/` and then `login` with the same email and password. A failed
      creation throws the backend's detail or 'Registration failed'; a failed login throws
      'Registration failed', since the error `login` throws carries no response. */
  function Registered(
    s: Session, data: ClientUserCreate, createReply: Reply<ClientUser>,
    tokenReply: Reply<AuthResponse>, meReply: Reply<ClientUser>)
    : (r: Outcome)
    ensures !r.session.isLoading
    ensures r.error.None? <==> createReply.Success? && tokenReply.Success? && meReply.Success?
    ensures createReply.Failure? ==>
              r.error == Some(Message(createReply.error, "Registration failed")) && r.session.user == s.user &&
              r.session.world.sent == s.world.sent + [Outgoing(RequestFor(CreateUser(data)), s.world.storage)]
    ensures createReply.Success? && r.error.Some? ==> r.error == Some("Registration failed")
    ensures r.error.None? ==> r.session.user == Some(meReply.data)
    ensures createReply.Success? ==>
              |r.session.world.sent| > |s.world.sent| + 1 &&
              r.session.world.sent[|s.world.sent| + 1] ==
                Outgoing(RequestFor(Login(data.email, data.password)),
                         Exchange(s.world, RequestFor(CreateUser(data)), createReply).storage)
  {
    var w1 := Exchange(s.world, RequestFor(CreateUser(data)), createReply);
    if createReply.Failure? then
      Outcome(s.(isLoading := false, world := w1), Some(Message(createReply.error, "Registration failed")))
    else
      var o := LoggedIn(s.(isLoading := true, world := w1), data.email, data.password, tokenReply, meReply);
      Outcome(o.session.(isLoading := false), if o.error.Some? then Some("Registration failed") else None)
  }

  /** `logout`: both keys removed and the user cleared; nothing is sent. */
  function LoggedOut(s: Session): (r: Session)
    ensures !IsAuthenticated(r) && r.isLoading == s.isLoading
    ensures r.world == s.world.(storage := Evict(s.world.storage))
  {
    Session(None, s.isLoading, s.world.(storage := Evict(s.world.storage)))
  }

  /** Logging out twice is logging out once. */
  lemma LogoutIdempotent(s: Session)
    ensures LoggedOut(LoggedOut(s)) == LoggedOut(s)
  {
    var e := Evict(s.world.storage);
    assert Evict(e) == e;
  }

  /** `updateUser`: the user replaced in memory and in storage; nothing is sent. */
  function UserUpdated(s: Session, u: ClientUser): (r: Session)
    ensures r.user == Some(u) && r.isLoading == s.isLoading
    ensures r.world == s.world.(storage := s.world.storage[UserKey := Json(u)])
  {
    s.(user := Some(u), world := s.world.(storage := s.world.storage[UserKey := Json(u)]))
  }

  /** After a successful login, a reload revalidates the stored session: start-up asks
      `GET /users/me` with the new token, and a positive answer restores the user. */
  lemma LoginSurvivesReload(
    s: Session, email: string, password: string, token: string, u: ClientUser, again: ClientUser)
    requires token != ""
    ensures var after := LoggedIn(s, email, password, Success(AuthResponse(token, "bearer")), Success(u)).session;
            var reloaded := Initialized(Session(None, true, after.world), Success(again));
            HasStoredSession(after.world.storage) &&
            reloaded.user == Some(again) &&
            reloaded.world.sent[|after.world.sent|].headers["Authorization"] == "Bearer " + token
  {
    var after := LoggedIn(s, email, password, Success(AuthResponse(token, "bearer")), Success(u)).session;
    assert Get(after.world.storage, TokenKey) == Some(token);
    assert Get(after.world.storage, UserKey) == Some(Json(u));
    assert Json(u) != "";
  }

  /** After a logout a reload asks nothing and stays anonymous. */
  lemma LogoutSurvivesReload(s: Session, reply: Reply<ClientUser>)
    ensures var out := LoggedOut(s);
            var reloaded := Initialized(Session(None, true, out.world), reply);
            !IsAuthenticated(reloaded) && reloaded.world == out.world && !reloaded.isLoading
  {
  }

  /** The provider: `user` and `isLoading` are React state, the tab is shared with the HTTP
      client. */
  class AuthProvider {
    var user: Option<ClientUser>
    var isLoading: bool
    const browser: Browser

    function State(): Session
      reads this, browser
    {
      Session(user, isLoading, browser.Snapshot())
    }

    /** `useState(null)` and `useState(true)`. */
    constructor (b: Browser)
      ensures browser == b && user.None? && isLoading
    {
      browser := b;
      user := None;
      isLoading := true;
    }

    method Initialize(reply: Reply<ClientUser>)
      modifies this, browser
      ensures State() == Initialized(old(State()), reply)
    {
      var token := Get(browser.storage, TokenKey);
      var savedUser := Get(browser.storage, UserKey);
      if Truthy(token) && Truthy(savedUser) {
        var current := Call(browser, GetCurrentUser, reply);
        if current.Success? {
          user := Some(current.data);
          browser.SetItem(UserKey, Json(current.data));
        } else {
          browser.RemoveItem(TokenKey);
          browser.RemoveItem(UserKey);
          user := None;
        }
      }
      isLoading := false;
    }

    method Login(email: string, password: string, tokenReply: Reply<AuthResponse>, meReply: Reply<ClientUser>)
      returns (error: Option<string>)
      modifies this, browser
      ensures Outcome(State(), error) == LoggedIn(old(State()), email, password, tokenReply, meReply)
    {
      isLoading := true;
      var response := Call(browser, UserApi.Login(email, password), tokenReply);
      if response.Failure? {
        error := Some(Message(response.error, "Login failed"));
      } else {
        browser.SetItem(TokenKey, response.data.accessToken);
        var current := Call(browser, GetCurrentUser, meReply);
        if current.Failure? {
          error := Some(Message(current.error, "Login failed"));
        } else {
          browser.SetItem(UserKey, Json(current.data));
          user := Some(current.data);
          error := None;
        }
      }
      isLoading := false;
    }

    method Register(
      data: ClientUserCreate, createReply: Reply<ClientUser>, tokenReply: Reply<AuthResponse>, meReply: Reply<ClientUser>)
      returns (error: Option<string>)
      modifies this, browser
      ensures Outcome(State(), error) == Registered(old(State()), data, createReply, tokenReply, meReply)
    {
      isLoading := true;
      var created := Call(browser, CreateUser(data), createReply);
      if created.Failure? {
        error := Some(Message(created.error, "Registration failed"));
      } else {
        var loginError := Login(data.email, data.password, tokenReply, meReply);
        error := if loginError.Some? then Some("Registration failed") else None;
      }
      isLoading := false;
    }

    method Logout()
      modifies this`user, browser`storage
      ensures State() == LoggedOut(old(State()))
    {
      browser.RemoveItem(TokenKey);
      browser.RemoveItem(UserKey);
      user := None;
    }

    method UpdateUser(updated: ClientUser)
      modifies this`user, browser`storage
      ensures State() == UserUpdated(old(State()), updated)
    {
      browser.SetItem(UserKey, Json(updated));
      user := Some(updated);
    }
  }
}
