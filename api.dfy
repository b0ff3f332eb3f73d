/**
 * The API client of services/api.ts: the token kept in browser storage,
 * the headers every request carries, how a response becomes a value or a
 * thrown error, the login/logout/upload calls, and the two endpoint paths
 * that carry a query string.
 *
 * The network is a parameter `send: Request -> Reply<T>`: what the server
 * (or the lack of one) answers to a request. `response.json()` is folded
 * into the reply as its `body`, already parsed or not parseable; the JSON
 * value is read both as the shape the caller expects and through its
 * `message` field, without any schema check (the source trusts the server
 * here too).
 */
module Api {
  import opened Wrappers
  import opened Text

  type Headers = map<string, string>

  const ContentType := "Content-Type"
  const Authorization := "Authorization"
  const JsonMime := "application/json"
  const BearerPrefix := "Bearer "

  const UnknownServerError := "An unknown server error occurred."
  const HttpErrorPrefix := "HTTP error! Status: "
  const LoginFailed := "Login failed."
  const UploadFailed := "Failed to upload logo."

  const LoginPath := "/auth/login"
  const UsersPath := "/users"
  const LogoPath := "/api/logo"
  const BillingRecordsPath := "/billing-records"
  const AttendancePrefix := "/attendance?"

  /** JavaScript truthiness of a string that may be `null`: absent or empty is false. */
  predicate Truthy(s: Option<string>) {
    s.Some? && s.value != ""
  }

  /** A user record as the backend sends it; attributes beyond identity are opaque here. */
  datatype User = User(id: string, username: string, email: string, role: string)

  /** The body of a successful login: the user and the token (`None` when the field is missing). */
  datatype LoginData = LoginData(user: User, token: Option<string>)

  datatype Request = Request(url: string, httpMethod: string, headers: Headers)

  /** A response body after `response.json()`: unparseable, or a JSON value. */
  datatype Body<T> = Malformed | Json(value: T, message: Option<string>)

  /** What `fetch` resolves to, or `Unreachable` when it rejects (no response at all). */
  datatype Reply<T> = Reply(status: nat, body: Body<T>) | Unreachable

  /** `response.ok`: a status in the range 200-299. */
  predicate Ok(status: nat) {
    200 <= status <= 299
  }

  /**
   * What a call throws: an `Error` with a message, the parse error of
   * `response.json()`, or the rejection of `fetch` itself. The messages of
   * the last two come from the JavaScript engine and are not modelled.
   */
  datatype Error = Thrown(message: string) | ParseFailure | NetworkFailure

  /** The single `authToken` entry of browser storage. */
  class TokenStore {
    var item: Option<string>

    constructor (initial: Option<string>)
      ensures item == initial
    {
      item := initial;
    }

    /** `localStorage.getItem('authToken')` (services/api.ts:14). */
    method Get() returns (t: Option<string>)
      ensures t == item
    {
      t := item;
    }

    /** `localStorage.setItem('authToken', v)`. */
    method Set(v: string)
      modifies this
      ensures item == Some(v)
    {
      item := Some(v);
    }

    /** `localStorage.removeItem('authToken')`. */
    method Remove()
      modifies this
      ensures item == None
    {
      item := None;
    }
  }

  /**
   * The default headers for a stored token: always JSON content, and a
   * bearer credential exactly when the token is present and non-empty.
   */
  function AuthHeaders(stored: Option<string>): (h: Headers)
    ensures ContentType in h && h[ContentType] == JsonMime
    ensures Authorization in h <==> Truthy(stored)
    ensures Authorization in h ==> h[Authorization] == BearerPrefix + stored.value
    ensures h.Keys <= {ContentType, Authorization}
  {
    var h := map[ContentType := JsonMime];
    if Truthy(stored) then h[Authorization := BearerPrefix + stored.value] else h
  }

  /** `getAuthHeaders`: builds the header map and inserts the credential when there is a token. */
  method GetAuthHeaders(store: TokenStore) returns (h: Headers)
    ensures h == AuthHeaders(store.item)
  {
    var token := store.Get();
    h := map[ContentType := JsonMime];
    if Truthy(token) {
      h := h[Authorization := BearerPrefix + token.value];
    }
  }

  /** The message `apiRequest` synthesizes when an error body cannot be parsed. */
  function HttpErrorText(status: nat): (m: string)
    ensures |m| > |HttpErrorPrefix| && m[..|HttpErrorPrefix|] == HttpErrorPrefix
    ensures forall i :: |HttpErrorPrefix| <= i < |m| ==> IsDigit(m[i])
    ensures ParseNat(m[|HttpErrorPrefix|..]) == status
  {
    var digits := NatToString(status);
    ParseNatToString(status);
    assert (HttpErrorPrefix + digits)[|HttpErrorPrefix|..] == digits;
    HttpErrorPrefix + digits
  }

  /** Different statuses give different synthesized messages. */
  lemma HttpErrorTextInjective(a: nat, b: nat)
    requires HttpErrorText(a) == HttpErrorText(b)
    ensures a == b
  {
    assert NatToString(a) == HttpErrorText(a)[|HttpErrorPrefix|..];
    assert NatToString(b) == HttpErrorText(b)[|HttpErrorPrefix|..];
    NatToStringInjective(a, b);
  }

  /**
   * How `apiRequest` turns a reply into a value: `None` stands for the
   * `null` of a 204, and every failure carries the error it throws.
   */
  function Classify<T>(reply: Reply<T>): (r: Result<Option<T>, Error>)
    ensures reply.Unreachable? ==> r == Failure(NetworkFailure)
    ensures reply.Reply? && !Ok(reply.status) ==> r.Failure? && r.error.Thrown? && r.error.message != ""
    ensures reply.Reply? && !Ok(reply.status) && reply.body.Json? && Truthy(reply.body.message) ==>
      r == Failure(Thrown(reply.body.message.value))
    ensures reply.Reply? && !Ok(reply.status) && reply.body.Json? && !Truthy(reply.body.message) ==>
      r == Failure(Thrown(UnknownServerError))
    ensures reply.Reply? && !Ok(reply.status) && reply.body.Malformed? ==>
      r == Failure(Thrown(HttpErrorText(reply.status)))
    ensures reply.Reply? && reply.status == 204 ==> r == Success(None)
    ensures reply.Reply? && Ok(reply.status) && reply.status != 204 ==>
      r == if reply.body.Json? then Success(Some(reply.body.value)) else Failure(ParseFailure)
  {
    match reply
    case Unreachable => Failure(NetworkFailure)
    case Reply(status, body) =>
      if !Ok(status) then
        var errorData := if body.Malformed? then Some(HttpErrorText(status)) else body.message;
        Failure(Thrown(if Truthy(errorData) then errorData.value else UnknownServerError))
      else if status == 204 then Success(None)
      else if body.Json? then Success(Some(body.value))
      else Failure(ParseFailure)
  }

  /** A 204 reply is never parsed: its body has no effect on the outcome. */
  lemma NoContentIgnoresBody<T>(b1: Body<T>, b2: Body<T>)
    ensures Classify(Reply(204, b1)) == Classify(Reply(204, b2)) == Success(None)
  {
  }

  /** `apiRequest` succeeds exactly on a 2xx reply that is a 204 or has a parseable body. */
  lemma ClassifySucceeds<T>(reply: Reply<T>)
    ensures Classify(reply).Success? <==>
      reply.Reply? && Ok(reply.status) && (reply.status == 204 || reply.body.Json?)
  {
  }

  /** The synthesized message names the status, so two statuses never share it. */
  lemma UnparseableErrorsDistinguishStatus<T>(s1: nat, s2: nat)
    requires !Ok(s1) && !Ok(s2)
    requires Classify<T>(Reply(s1, Malformed)) == Classify<T>(Reply(s2, Malformed))
    ensures s1 == s2
  {
    HttpErrorTextInjective(s1, s2);
  }

  /** The request `apiRequest` sends: caller headers as given, else the default ones. */
  function RequestFor(base: string, endpoint: string, httpMethod: string, headers: Option<Headers>, stored: Option<string>): (req: Request)
    ensures req.url == base + endpoint && req.httpMethod == httpMethod
    ensures headers.Some? ==> req.headers == headers.value
    ensures headers.None? ==> req.headers == AuthHeaders(stored)
  {
    Request(base + endpoint, httpMethod, if headers.Some? then headers.value else AuthHeaders(stored))
  }

  /** `apiRequest(endpoint, options)`. */
  method ApiRequest<T>(store: TokenStore, base: string, endpoint: string, httpMethod: string,
                       headers: Option<Headers>, send: Request -> Reply<T>)
    returns (sent: Request, r: Result<Option<T>, Error>)
    ensures sent == RequestFor(base, endpoint, httpMethod, headers, store.item)
    ensures r == Classify(send(sent))
  {
    var h: Headers;
    if headers.Some? {
      h := headers.value;
    } else {
      h := GetAuthHeaders(store);
    }
    sent := Request(base + endpoint, httpMethod, h);
    r := Classify(send(sent));
  }

  /** `apiCreateUser`: a POST to `/users` with the default headers. */
  method ApiCreateUser<T>(store: TokenStore, base: string, send: Request -> Reply<T>)
    returns (sent: Request, r: Result<Option<T>, Error>)
    ensures sent == Request(base + UsersPath, "POST", AuthHeaders(store.item))
    ensures r == Classify(send(sent))
  {
    sent, r := ApiRequest(store, base, UsersPath, "POST", None, send);
  }

  /** The path of `apiFetchUserById(userId)`. */
  function UserPath(userId: string): (p: string)
    ensures UsersPath + "/" <= p && p[|UsersPath| + 1..] == userId
  {
    UsersPath + "/" + userId
  }

  /** The login request: JSON content type only, never a credential. */
  function LoginRequest(base: string): (req: Request)
    ensures req.url == base + LoginPath && req.httpMethod == "POST"
    ensures req.headers.Keys == {ContentType} && req.headers[ContentType] == JsonMime
    ensures Authorization !in req.headers
  {
    Request(base + LoginPath, "POST", map[ContentType := JsonMime])
  }

  /**
   * How `apiLogin` reads its reply. Unlike `apiRequest`, an error body
   * that does not parse is not caught: its parse error is what is thrown.
   */
  function LoginOutcome(reply: Reply<LoginData>): (r: Result<LoginData, Error>)
    ensures r.Success? <==> reply.Reply? && Ok(reply.status) && reply.body.Json?
    ensures r.Success? ==> r.value == reply.body.value
    ensures reply.Unreachable? ==> r == Failure(NetworkFailure)
    ensures reply.Reply? && reply.body.Malformed? ==> r == Failure(ParseFailure)
    ensures reply.Reply? && !Ok(reply.status) && reply.body.Json? ==>
      r == Failure(Thrown(if Truthy(reply.body.message) then reply.body.message.value else LoginFailed))
  {
    match reply
    case Unreachable => Failure(NetworkFailure)
    case Reply(status, body) =>
      if body.Malformed? then Failure(ParseFailure)
      else if !Ok(status) then
        Failure(Thrown(if Truthy(body.message) then body.message.value else LoginFailed))
      else Success(body.value)
  }

  /**
   * `apiLogin`: the store takes the returned token only on success and only
   * when that token is truthy; otherwise it keeps what it held.
   */
  method ApiLogin(store: TokenStore, base: string, send: Request -> Reply<LoginData>)
    returns (sent: Request, r: Result<LoginData, Error>)
    modifies store
    ensures sent == LoginRequest(base)
    ensures r == LoginOutcome(send(sent))
    ensures store.item == if r.Success? && Truthy(r.value.token) then r.value.token else old(store.item)
  {
    sent := Request(base + LoginPath, "POST", map[ContentType := JsonMime]);
    r := LoginOutcome(send(sent));
    if r.Success? && Truthy(r.value.token) {
      store.Set(r.value.token.value);
    }
  }

  /** `apiLogout`: empties the store, whatever it held; it cannot fail. */
  method ApiLogout(store: TokenStore)
    modifies store
    ensures store.item == None
  {
    store.Remove();
  }

  /**
   * How `apiUploadLogo` reads its reply: an unparseable error body becomes
   * "Failed to upload logo."; a parsed one throws its `message`, which is
   * the empty message of `new Error(undefined)` when the field is missing.
   * A 204 is not special-cased here.
   */
  function UploadOutcome<T>(reply: Reply<T>): (r: Result<T, Error>)
    ensures r.Success? <==> reply.Reply? && Ok(reply.status) && reply.body.Json?
    ensures r.Success? ==> r.value == reply.body.value
    ensures reply.Unreachable? ==> r == Failure(NetworkFailure)
    ensures reply.Reply? && !Ok(reply.status) && reply.body.Malformed? ==> r == Failure(Thrown(UploadFailed))
    ensures reply.Reply? && !Ok(reply.status) && reply.body.Json? ==> r == Failure(Thrown(reply.body.message.GetOr("")))
    ensures reply.Reply? && Ok(reply.status) && reply.body.Malformed? ==> r == Failure(ParseFailure)
  {
    match reply
    case Unreachable => Failure(NetworkFailure)
    case Reply(status, body) =>
      if !Ok(status) then
        Failure(Thrown(if body.Malformed? then UploadFailed else body.message.GetOr("")))
      else if body.Json? then Success(body.value)
      else Failure(ParseFailure)
  }

  /**
   * `apiUploadLogo`: the default headers with `Content-Type` deleted, so the
   * credential is kept exactly when there is a token.
   */
  method ApiUploadLogo<T>(store: TokenStore, base: string, send: Request -> Reply<T>)
    returns (sent: Request, r: Result<T, Error>)
    ensures sent.url == base + LogoPath && sent.httpMethod == "POST"
    ensures sent.headers == AuthHeaders(store.item) - {ContentType}
    ensures ContentType !in sent.headers
    ensures Authorization in sent.headers <==> Truthy(store.item)
    ensures Authorization in sent.headers ==> sent.headers[Authorization] == BearerPrefix + store.item.value
    ensures r == UploadOutcome(send(sent))
  {
    var headers := GetAuthHeaders(store);
    headers := headers - {ContentType};
    sent := Request(base + LogoPath, "POST", headers);
    r := UploadOutcome(send(sent));
  }

  /** The path of `apiFetchBillingRecords(userId)`: a query only for a non-empty id. */
  function BillingPath(userId: Option<string>): (p: string)
    ensures BillingRecordsPath <= p
    ensures '?' in p <==> Truthy(userId)
    ensures !Truthy(userId) ==> p == BillingRecordsPath
  {
    var query := if Truthy(userId) then "?userId=" + userId.value else "";
    assert Truthy(userId) ==> (BillingRecordsPath + query)[|BillingRecordsPath|] == '?';
    BillingRecordsPath + query
  }

  /** The billing query carries the id itself (nothing is URL-encoded). */
  lemma BillingQuery(userId: string)
    requires userId != "" && '?' !in userId
    ensures Split(BillingPath(Some(userId)), '?') == [BillingRecordsPath, "userId=" + userId]
  {
    var field := "userId=" + userId;
    assert BillingPath(Some(userId)) == BillingRecordsPath + ['?'] + field;
    SplitPair(BillingRecordsPath, field, '?');
  }

  datatype AttendanceFilters = AttendanceFilters(userId: Option<string>, date: Option<string>)

  /** `filters?.userId || ''` and `filters?.date || ''`. */
  function FilterUserId(filters: Option<AttendanceFilters>): (v: string)
    ensures v != "" <==> filters.Some? && Truthy(filters.value.userId)
    ensures v != "" ==> filters.value.userId == Some(v)
  {
    if filters.Some? && Truthy(filters.value.userId) then filters.value.userId.value else ""
  }

  function FilterDate(filters: Option<AttendanceFilters>): (v: string)
    ensures v != "" <==> filters.Some? && Truthy(filters.value.date)
    ensures v != "" ==> filters.value.date == Some(v)
  {
    if filters.Some? && Truthy(filters.value.date) then filters.value.date.value else ""
  }

  /** The path of `apiFetchAllAttendanceRecords(filters)`: both keys, always. */
  function AttendancePath(filters: Option<AttendanceFilters>): (p: string)
    ensures AttendancePrefix <= p
    ensures filters.None? ==> p == AttendancePrefix + "userId=&date="
  {
    AttendancePrefix + "userId=" + FilterUserId(filters) + "&date=" + FilterDate(filters)
  }

  /**
   * The attendance query always splits into a `userId=` and a `date=` field
   * holding the filter values (empty when absent), as long as neither value
   * contains a field separator.
   */
  lemma AttendanceQuery(filters: Option<AttendanceFilters>)
    requires '&' !in FilterUserId(filters) && '&' !in FilterDate(filters)
    ensures var p := AttendancePath(filters);
      Split(p[|AttendancePrefix|..], '&') == ["userId=" + FilterUserId(filters), "date=" + FilterDate(filters)]
  {
    var u := "userId=" + FilterUserId(filters);
    var d := "date=" + FilterDate(filters);
    var p := AttendancePath(filters);
    assert p[|AttendancePrefix|..] == u + ['&'] + d;
    SplitPair(u, d, '&');
  }
}
