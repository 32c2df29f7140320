/** frontend/src/api/userApi.ts: the browser's HTTP client and the user endpoints. Every
    request passes an outbound interceptor that attaches the stored bearer token, and every
    failed response passes an inbound interceptor that, on 401, forgets the stored token and
    user and sends the tab to the login page. The browser tab (its local storage, its location
    and the requests it has sent) is a class; the backend's reply to a request is a parameter. */
module UserApi {
  import opened Wrappers
  import opened Decimal
  import Models

  const BaseUrl := "http://localhost:8001"
  const TokenKey := "access_token"
  const UserKey := "user"
  const LoginPage := "/login"

  /** The user record the backend returns (app/schemas/user.py `User`). */
  datatype ClientUser = ClientUser(
    firstName: string, lastName: string, email: string, role: Option<Models.Role>, id: int, createdAt: string)

  datatype ClientUserCreate = ClientUserCreate(
    firstName: string, lastName: string, email: string, role: Option<Models.Role>, password: string)

  datatype ClientUserUpdate = ClientUserUpdate(
    firstName: Option<string>, lastName: Option<string>, email: Option<string>,
    role: Option<Models.Role>, password: Option<string>)

  /** The reply to `POST /token`. */
  datatype AuthResponse = AuthResponse(accessToken: string, tokenType: string)

  function Quote(s: string): string {
    "\"" + s + "\""
  }

  /** `JSON.stringify(user)`, with the keys in the order the backend sends them. */
  function Json(u: ClientUser): string {
    "{\"first_name\":" + Quote(u.firstName) + ",\"last_name\":" + Quote(u.lastName) +
    ",\"email\":" + Quote(u.email) +
    ",\"role\":" + (if u.role.Some? then Quote(Models.RoleValue(u.role.value)) else "null") +
    ",\"id\":" + ShowInt(u.id) + ",\"created_at\":" + Quote(u.createdAt) + "}"
  }

  // ---------------------------------------------------------------------------------------
  // Requests and replies.

  /** A request body: none, form fields, or one of the JSON payloads of the user endpoints. */
  datatype Body = NoBody | Form(fields: seq<(string, string)>) | NewUser(data: ClientUserCreate) | Changes(update: ClientUserUpdate)

  datatype Request = Request(verb: string, url: string, headers: map<string, string>, body: Body)

  /** What a failed request rejects with: the HTTP status and the `detail` of the response
      body, both absent when no response arrived. */
  datatype ApiError = ApiError(status: Option<int>, detail: Option<string>)

  /** The backend's answer to one request. */
  datatype Reply<T> = Success(data: T) | Failure(error: ApiError)

  predicate Unauthorized<T>(reply: Reply<T>) {
    reply.Failure? && reply.error.status == Some(401)
  }

  /** `localStorage.getItem(key)`: the stored text, or `null`. */
  function Get(storage: map<string, string>, key: string): (r: Option<string>)
    ensures r.Some? <==> key in storage
    ensures r.Some? ==> r.value == storage[key]
  {
    if key in storage then Some(storage[key]) else None
  }

  /** Storage without the token and the user, every other key untouched. */
  function Evict(storage: map<string, string>): (r: map<string, string>)
    ensures TokenKey !in r && UserKey !in r
    ensures forall k :: k in storage && k != TokenKey && k != UserKey ==> k in r && r[k] == storage[k]
    ensures forall k :: k in r ==> k in storage
  {
    storage - {TokenKey, UserKey}
  }

  /** The headers of the instance created with `axios.create`. */
  const DefaultHeaders: map<string, string> := map["Content-Type" := "application/json"]

  /** The headers after the request interceptor: with a stored, non-empty token the
      `Authorization` header is `Bearer <token>`, any earlier value replaced; without one the
      headers are as they were. No other header changes. */
  function WithBearer(headers: map<string, string>, token: Option<string>): (r: map<string, string>)
    ensures Truthy(token) ==> "Authorization" in r && r["Authorization"] == "Bearer " + token.value
    ensures !Truthy(token) ==> r == headers
    ensures forall k :: k in headers && k != "Authorization" ==> k in r && r[k] == headers[k]
    ensures forall k :: k in r ==> k in headers || k == "Authorization"
  {
    if Truthy(token) then headers["Authorization" := "Bearer " + token.value] else headers
  }

  /** The request as it leaves the tab, when the storage holds `storage`. */
  function Outgoing(req: Request, storage: map<string, string>): (r: Request)
    ensures r.verb == req.verb && r.url == req.url && r.body == req.body
    ensures r.headers == WithBearer(req.headers, Get(storage, TokenKey))
  {
    req.(headers := WithBearer(req.headers, Get(storage, TokenKey)))
  }

  /** What the tab can observe: its storage, its location and the requests it has sent. */
  datatype World = World(storage: map<string, string>, location: string, sent: seq<Request>)

  /** One request through both interceptors: it is sent with the bearer header of the stored
      token; a 401 reply evicts the token and the user and moves the tab to the login page;
      any other reply, failed or not, leaves storage and location as they were. */
  function Exchange<T>(w: World, req: Request, reply: Reply<T>): (r: World)
    ensures r.sent == w.sent + [Outgoing(req, w.storage)]
    ensures Unauthorized(reply) ==> r.storage == Evict(w.storage) && r.location == LoginPage
    ensures !Unauthorized(reply) ==> r.storage == w.storage && r.location == w.location
  {
    var sent := w.sent + [Outgoing(req, w.storage)];
    if Unauthorized(reply) then World(Evict(w.storage), LoginPage, sent) else w.(sent := sent)
  }

  /** After a 401, whatever the endpoint, no credential is left and the next request carries
      no bearer header of its own. */
  lemma UnauthorizedForgets<T>(w: World, req: Request, reply: Reply<T>, next: Request)
    requires Unauthorized(reply)
    ensures Get(Exchange(w, req, reply).storage, TokenKey).None?
    ensures Get(Exchange(w, req, reply).storage, UserKey).None?
    ensures Outgoing(next, Exchange(w, req, reply).storage) == next
  {
  }

  // ---------------------------------------------------------------------------------------
  // The tab.

  /** The request config the interceptor receives; it changes the headers in place. */
  class RequestConfig {
    var verb: string
    var url: string
    var headers: map<string, string>
    var body: Body

    constructor (req: Request)
      ensures Value() == req
    {
      verb, url, headers, body := req.verb, req.url, req.headers, req.body;
    }

    function Value(): Request
      reads this
    {
      Request(verb, url, headers, body)
    }
  }

  class Browser {
    var storage: map<string, string>
    var location: string
    var sent: seq<Request>

    constructor (storage: map<string, string>, location: string)
      ensures Snapshot() == World(storage, location, [])
    {
      this.storage, this.location, this.sent := storage, location, [];
    }

    function Snapshot(): World
      reads this
    {
      World(storage, location, sent)
    }

    /** `localStorage.setItem(key, value)`. */
    method SetItem(key: string, value: string)
      modifies this`storage
      ensures storage == old(storage)[key := value]
    {
      storage := storage[key := value];
    }

    /** `localStorage.removeItem(key)`. */
    method RemoveItem(key: string)
      modifies this`storage
      ensures storage == old(storage) - {key}
    {
      storage := storage - {key};
    }
  }

  /** The outbound interceptor: with a stored token, set the `Authorization` header. */
  method AttachToken(b: Browser, config: RequestConfig)
    modifies config`headers
    ensures config.headers == WithBearer(old(config.headers), Get(b.storage, TokenKey))
  {
    var token := Get(b.storage, TokenKey);
    if Truthy(token) {
      config.headers := config.headers["Authorization" := "Bearer " + token.value];
    }
  }

  /** The inbound interceptor for a failed request: on 401, remove both keys and go to the
      login page; the error is rejected again unchanged. */
  method OnResponseError(b: Browser, error: ApiError) returns (r: ApiError)
    modifies b`storage, b`location
    ensures r == error
    ensures error.status == Some(401) ==> b.storage == Evict(old(b.storage)) && b.location == LoginPage
    ensures error.status != Some(401) ==> b.storage == old(b.storage) && b.location == old(b.location)
  {
    if error.status == Some(401) {
      b.RemoveItem(TokenKey);
      b.RemoveItem(UserKey);
      b.location := LoginPage;
    }
    r := error;
  }

  /** One request through the client: the reply reaches the caller unchanged, a success
      without passing the error interceptor. */
  method Send<T>(b: Browser, req: Request, reply: Reply<T>) returns (r: Reply<T>)
    modifies b
    ensures r == reply
    ensures b.Snapshot() == Exchange(old(b.Snapshot()), req, reply)
  {
    var config := new RequestConfig(req);
    AttachToken(b, config);
    b.sent := b.sent + [config.Value()];
    if reply.Failure? {
      var error := OnResponseError(b, reply.error);
      r := Failure(error);
    } else {
      r := reply;
    }
  }

  // ---------------------------------------------------------------------------------------
  // The user endpoints.

  /** `/users/{id}` with the id as JavaScript prints it. */
  function UserPath(id: int): string {
    "/users/" + ShowInt(id)
  }

  datatype UserCall =
    | Login(email: string, password: string)
    | GetCurrentUser
    | CreateUser(data: ClientUserCreate)
    | CreateAdminUser(data: ClientUserCreate)
    | UpdateUser(userId: int, changes: ClientUserUpdate)
    | DeleteUser(userId: int)
    | BlockUser(userId: int)
    | UnblockUser(userId: int)
    | GetUserActivityReport(userId: int)

  /** The request each `userApi` method makes. */
  function RequestFor(call: UserCall): Request {
    match call
    case Login(email, password) =>
      Request("POST", BaseUrl + "/token", DefaultHeaders["Content-Type" := "application/x-www-form-urlencoded"],
              Form([("username", email), ("password", password)]))
    case GetCurrentUser => Request("GET", BaseUrl + "/users/me", DefaultHeaders, NoBody)
    case CreateUser(data) => Request("POST", BaseUrl + "/users/", DefaultHeaders, NewUser(data))
    case CreateAdminUser(data) => Request("POST", BaseUrl + "/users/admin", DefaultHeaders, NewUser(data))
    case UpdateUser(id, changes) => Request("PUT", BaseUrl + UserPath(id), DefaultHeaders, Changes(changes))
    case DeleteUser(id) => Request("DELETE", BaseUrl + UserPath(id), DefaultHeaders, NoBody)
    case BlockUser(id) => Request("PUT", BaseUrl + UserPath(id) + "/block", DefaultHeaders, NoBody)
    case UnblockUser(id) => Request("PUT", BaseUrl + UserPath(id) + "/unblock", DefaultHeaders, NoBody)
    case GetUserActivityReport(id) => Request("GET", BaseUrl + UserPath(id) + "/activity_report", DefaultHeaders, NoBody)
  }

  /** The value of the first form field with that name. */
  function FormValue(fields: seq<(string, string)>, name: string): Option<string> {
    if fields == [] then None
    else if fields[0].0 == name then Some(fields[0].1)
    else FormValue(fields[1..], name)
  }

  /** The login form carries the email as `username` (the OAuth2 password form the backend
      reads) and the password as `password`, form-encoded, to `POST /token`. */
  lemma LoginForm(email: string, password: string)
    ensures var req := RequestFor(Login(email, password));
            req.verb == "POST" && req.url == BaseUrl + "/token" && req.body.Form? &&
            FormValue(req.body.fields, "username") == Some(email) &&
            FormValue(req.body.fields, "password") == Some(password) &&
            req.headers["Content-Type"] == "application/x-www-form-urlencoded"
  {
  }

  /** The path of a per-user endpoint names the user: the id is read back from it, so two
      users never share a path. */
  lemma {:induction false} UserPathNamesUser(id: int, suffix: string)
    ensures var path := UserPath(id) + suffix;
            |path| >= 7 + |ShowInt(id)| && path[..7] == "/users/" &&
            ParseInt(path[7..7 + |ShowInt(id)|]) == Some(id) && path[7 + |ShowInt(id)|..] == suffix
  {
    var path := UserPath(id) + suffix;
    assert path == "/users/" + ShowInt(id) + suffix;
    assert path[7..7 + |ShowInt(id)|] == ShowInt(id);
    ParseShowInt(id);
  }

  lemma UserPathInjective(a: int, b: int, suffix: string)
    requires UserPath(a) + suffix == UserPath(b) + suffix
    ensures a == b
  {
    var pa, pb := UserPath(a) + suffix, UserPath(b) + suffix;
    assert |ShowInt(a)| == |ShowInt(b)|;
    assert ShowInt(a) == pa[7..7 + |ShowInt(a)|];
    assert ShowInt(b) == pb[7..7 + |ShowInt(b)|];
    ShowIntInjective(a, b);
  }

  /** The per-user endpoints: `/users/{id}` for update and delete, then `/block`,
      `/unblock` and `/activity_report` after it. */
  lemma PerUserPaths(id: int, changes: ClientUserUpdate)
    ensures RequestFor(UpdateUser(id, changes)).url == BaseUrl + UserPath(id)
    ensures RequestFor(DeleteUser(id)).url == BaseUrl + UserPath(id)
    ensures RequestFor(BlockUser(id)).url == BaseUrl + UserPath(id) + "/block"
    ensures RequestFor(UnblockUser(id)).url == BaseUrl + UserPath(id) + "/unblock"
    ensures RequestFor(GetUserActivityReport(id)).url == BaseUrl + UserPath(id) + "/activity_report"
  {
  }

  /** Calls one `userApi` method. */
  method Call<T>(b: Browser, call: UserCall, reply: Reply<T>) returns (r: Reply<T>)
    modifies b
    ensures r == reply
    ensures b.Snapshot() == Exchange(old(b.Snapshot()), RequestFor(call), reply)
  {
    r := Send(b, RequestFor(call), reply);
  }
}
