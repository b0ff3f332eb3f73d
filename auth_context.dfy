/**
 * The session manager of context/AuthContext.tsx: the `user`, `token` and
 * `loading` state of `AuthProvider`, the token effect that resolves a token
 * into a user, and the `login`, `register` and `logout` handlers.
 *
 * `Session` is a snapshot of that state together with the stored token and
 * the last navigation target; the functions over it (`Initial`,
 * `Resolution`, `EffectStep`, `LoginStep`, `LogoutStep`, `AfterRender`)
 * specify each step, and the class `AuthProvider` performs the steps by
 * updating its fields and the shared `TokenStore` in place.
 *
 * Decoding a token segment (`atob` followed by `JSON.parse`) is a parameter
 * `decode`, which yields no payload when either of them throws or the
 * result is not an object.
 */
module AuthContext {
  import opened Wrappers
  import opened Text
  import opened Api

  const AppRoute := "/app"
  const WelcomeRoute := "/welcome"

  /** The decoded token payload; `userId` is absent when the field is missing. */
  datatype Payload = Payload(userId: Option<string>)

  datatype Session = Session(
    stored: Option<string>,   // the `authToken` entry of browser storage
    user: Option<User>,
    token: Option<string>,
    loading: bool,
    route: Option<string>)    // the last `navigate` target, if any

  /** The state right after `AuthProvider` is created. */
  function Initial(stored: Option<string>): (s: Session)
    ensures s.token == s.stored == stored
    ensures s.user == None && s.loading && s.route == None
  {
    Session(stored, None, stored, true, None)
  }

  /** `{!loading && children}`: children are rendered only once `loading` is false. */
  predicate RendersChildren(s: Session)
    ensures RendersChildren(s) <==> !s.loading
  {
    !s.loading
  }

  /** `jwtToken.split('.')[1]`: the second dot-separated segment, if there is one. */
  function TokenSegment(jwt: string): (segment: Option<string>)
    ensures segment.Some? <==> '.' in jwt
    ensures segment.Some? ==> '.' !in segment.value
  {
    var parts := Split(jwt, '.');
    if |parts| > 1 then Some(parts[1]) else None
  }

  /**
   * Segment [1] is the text between the first and the second dot; nothing
   * checks that there are exactly three segments, so a two-segment text is
   * read the same way.
   */
  lemma MiddleSegment(header: string, payload: string, rest: string)
    requires '.' !in header && '.' !in payload
    ensures TokenSegment(header + "." + payload) == Some(payload)
    ensures TokenSegment(header + "." + payload + "." + rest) == Some(payload)
  {
    SplitPair(header, payload, '.');
    assert header + "." + payload == header + ['.'] + payload;
    var tail := payload + ['.'] + rest;
    assert header + "." + payload + "." + rest == header + ['.'] + tail;
    SplitAppend(header, tail, '.');
    SplitAppend(payload, rest, '.');
    SplitNoSeparator(header, '.');
    SplitNoSeparator(payload, '.');
  }

  /** The `userId` claimed by a token, when its payload decodes and the claim is truthy. */
  function ClaimedUserId(jwt: string, decode: string -> Option<Payload>): (id: Option<string>)
    ensures id.Some? ==> id.value != "" && '.' in jwt
    ensures id.Some? <==>
      TokenSegment(jwt).Some? && decode(TokenSegment(jwt).value).Some? &&
      Truthy(decode(TokenSegment(jwt).value).value.userId)
    ensures id.Some? ==> id == decode(TokenSegment(jwt).value).value.userId
  {
    match TokenSegment(jwt)
    case None => None
    case Some(segment) =>
      match decode(segment)
      case None => None
      case Some(payload) => if Truthy(payload.userId) then payload.userId else None
  }

  /** The request of `apiFetchUserById(id)`, sent with the default headers. */
  function UserRequest(base: string, stored: Option<string>, id: string): (req: Request)
    ensures req.httpMethod == "GET" && req.headers == AuthHeaders(stored)
    ensures req.url == base + UserPath(id)
  {
    RequestFor(base, UserPath(id), "GET", None, stored)
  }

  /**
   * What `fetchAndSetUser` hands to `setUser` when nothing throws (`None`
   * inside for the `null` of a 204 reply), or `None` when it throws.
   */
  function ResolvedUser(stored: Option<string>, base: string, jwt: string,
                        decode: string -> Option<Payload>, send: Request -> Reply<User>): (r: Option<Option<User>>)
    ensures r.Some? ==> ClaimedUserId(jwt, decode).Some?
  {
    match ClaimedUserId(jwt, decode)
    case None => None
    case Some(id) =>
      match Classify(send(UserRequest(base, stored, id)))
      case Success(fetched) => Some(fetched)
      case Failure(_) => None
  }

  /**
   * `fetchAndSetUser(jwt)`: on success only `user` changes; on any failure
   * the store, `token` and `user` are all cleared; `loading` ends false.
   */
  function Resolution(s: Session, base: string, jwt: string,
                      decode: string -> Option<Payload>, send: Request -> Reply<User>): (t: Session)
    ensures !t.loading && t.route == s.route
    ensures ResolvedUser(s.stored, base, jwt, decode, send).Some? ==>
      t.stored == s.stored && t.token == s.token && t.user == ResolvedUser(s.stored, base, jwt, decode, send).value
    ensures ResolvedUser(s.stored, base, jwt, decode, send).None? ==>
      t.stored == None && t.token == None && t.user == None
  {
    match ResolvedUser(s.stored, base, jwt, decode, send)
    case Some(fetched) => s.(user := fetched, loading := false)
    case None => s.(stored := None, token := None, user := None, loading := false)
  }

  /** A token whose claim resolves to a fetched user authenticates as that user. */
  lemma ResolutionSucceeds(s: Session, base: string, jwt: string, decode: string -> Option<Payload>,
                           send: Request -> Reply<User>, segment: string, id: string, u: User)
    requires TokenSegment(jwt) == Some(segment)
    requires decode(segment).Some? && decode(segment).value.userId == Some(id) && id != ""
    requires Classify(send(UserRequest(base, s.stored, id))) == Success(Some(u))
    ensures Resolution(s, base, jwt, decode, send) == s.(user := Some(u), loading := false)
  {
  }

  /**
   * A token without a segment [1], with a segment that does not decode, or
   * with a missing or empty `userId`, is discarded before any request.
   */
  lemma ResolutionRejectsClaimless(s: Session, base: string, jwt: string, decode: string -> Option<Payload>,
                                   send: Request -> Reply<User>)
    requires TokenSegment(jwt).None? || decode(TokenSegment(jwt).value).None? ||
             !Truthy(decode(TokenSegment(jwt).value).value.userId)
    ensures Resolution(s, base, jwt, decode, send) == Session(None, None, None, false, s.route)
  {
  }

  /**
   * A 204 reply to the user fetch throws nothing: `user` becomes null while
   * the token stays in memory and in the store.
   */
  lemma ResolutionNoContent(s: Session, base: string, jwt: string, decode: string -> Option<Payload>,
                            send: Request -> Reply<User>, segment: string, id: string, body: Body<User>)
    requires TokenSegment(jwt) == Some(segment)
    requires decode(segment).Some? && decode(segment).value.userId == Some(id) && id != ""
    requires send(UserRequest(base, s.stored, id)) == Reply(204, body)
    ensures Resolution(s, base, jwt, decode, send) == s.(user := None, loading := false)
  {
  }

  /** A failed fetch of the claimed user discards the token. */
  lemma ResolutionRejectsFailedFetch(s: Session, base: string, jwt: string, decode: string -> Option<Payload>,
                                     send: Request -> Reply<User>, id: string)
    requires ClaimedUserId(jwt, decode) == Some(id)
    requires Classify(send(UserRequest(base, s.stored, id))).Failure?
    ensures Resolution(s, base, jwt, decode, send) == Session(None, None, None, false, s.route)
  {
  }

  /**
   * The token effect: resolve a truthy token, otherwise only clear
   * `loading`. Either way `loading` ends false, and the token survives
   * unless it is discarded together with the store and the user.
   */
  function EffectStep(s: Session, base: string, decode: string -> Option<Payload>,
                      send: Request -> Reply<User>): (t: Session)
    ensures !t.loading && t.route == s.route
    ensures Truthy(s.token) ==> t == Resolution(s, base, s.token.value, decode, send)
    ensures !Truthy(s.token) ==> t.stored == s.stored && t.token == s.token && t.user == s.user
    ensures (t.stored == s.stored && t.token == s.token) ||
            (t.stored == None && t.token == None && t.user == None)
  {
    if Truthy(s.token) then Resolution(s, base, s.token.value, decode, send)
    else s.(loading := false)
  }

  /**
   * A render: React runs the effect keyed on `token` when it has never run
   * (`ran` is `None`) or last ran for a different `token`; otherwise nothing happens.
   */
  function AfterRender(ran: Option<Option<string>>, s: Session, base: string,
                       decode: string -> Option<Payload>, send: Request -> Reply<User>): (t: Session)
    ensures ran == Some(s.token) ==> t == s
    ensures ran != Some(s.token) ==> t == EffectStep(s, base, decode, send)
    ensures ran != Some(s.token) ==> !t.loading
  {
    if ran != Some(s.token) then EffectStep(s, base, decode, send) else s
  }

  /** What `localStorage.setItem` stores for `newToken`: its string conversion. */
  function StoredText(newToken: Option<string>): (text: string)
    ensures newToken.Some? ==> text == newToken.value
    ensures newToken.None? ==> text == "undefined"
  {
    match newToken
    case Some(t) => t
    case None => "undefined"
  }

  /**
   * `login`: on success the returned user and token replace the state, the
   * store holds the token again and the route is `/app`; on failure nothing
   * changes (the error goes to the caller).
   */
  function LoginStep(s: Session, outcome: Result<LoginData, Error>): (t: Session)
    ensures outcome.Failure? ==> t == s
    ensures outcome.Success? ==>
      t.user == Some(outcome.value.user) && t.token == outcome.value.token &&
      t.stored == Some(StoredText(outcome.value.token)) && t.route == Some(AppRoute) &&
      t.loading == s.loading
  {
    match outcome
    case Failure(_) => s
    case Success(data) =>
      s.(user := Some(data.user), token := data.token, stored := Some(StoredText(data.token)), route := Some(AppRoute))
  }

  /** `logout`: the store, `user` and `token` are cleared and the route is `/welcome`. */
  function LogoutStep(s: Session): (t: Session)
    ensures t.stored == None && t.user == None && t.token == None
    ensures t.route == Some(WelcomeRoute) && t.loading == s.loading
  {
    s.(stored := None, user := None, token := None, route := Some(WelcomeRoute))
  }

  /** The stored token and the in-memory token agree. */
  predicate Synced(s: Session) {
    s.stored == s.token
  }

  /** Every step keeps the store and `token` in agreement, except a login reply without a token. */
  lemma SyncedPreserved(s: Session, base: string, decode: string -> Option<Payload>,
                        send: Request -> Reply<User>, outcome: Result<LoginData, Error>, ran: Option<Option<string>>)
    requires Synced(s)
    ensures Synced(Initial(s.stored))
    ensures Synced(EffectStep(s, base, decode, send))
    ensures Synced(AfterRender(ran, s, base, decode, send))
    ensures Synced(LogoutStep(s))
    ensures outcome.Failure? || outcome.value.token.Some? ==> Synced(LoginStep(s, outcome))
  {
  }

  /**
   * A successful login reply without a token leaves `token` absent
   * (`undefined`) but stores the text "undefined".
   */
  lemma LoginWithoutTokenDesyncs(s: Session, u: User)
    ensures var t := LoginStep(s, Success(LoginData(u, None)));
      t.token == None && t.stored == Some("undefined") && !Synced(t)
  {
  }

  /** Logging out twice is the same as logging out once, including the effect it triggers. */
  lemma LogoutIdempotent(s: Session, base: string, decode: string -> Option<Payload>, send: Request -> Reply<User>)
    ensures LogoutStep(LogoutStep(s)) == LogoutStep(s)
    ensures var once := AfterRender(Some(s.token), LogoutStep(s), base, decode, send);
      AfterRender(Some(once.token), LogoutStep(once), base, decode, send) == once
  {
  }

  /**
   * The effect settles in one extra round: if it changed `token` (by
   * discarding it), the render that follows runs it again with no further change.
   */
  lemma EffectSettles(s: Session, base: string, decode: string -> Option<Payload>, send: Request -> Reply<User>)
    ensures var t := EffectStep(s, base, decode, send);
      AfterRender(Some(s.token), t, base, decode, send) == t
  {
  }

  /** A successful login with a new truthy token triggers resolution of that token. */
  lemma LoginResolvesNewToken(s: Session, data: LoginData, base: string,
                              decode: string -> Option<Payload>, send: Request -> Reply<User>)
    requires Truthy(data.token) && data.token != s.token
    ensures var t := LoginStep(s, Success(data));
      AfterRender(Some(s.token), t, base, decode, send) == Resolution(t, base, data.token.value, decode, send)
  {
  }

  /** Start-up with no usable token: anonymous, and children render once the effect has run. */
  lemma MountWithoutToken(stored: Option<string>, base: string, decode: string -> Option<Payload>,
                          send: Request -> Reply<User>)
    requires !Truthy(stored)
    ensures !RendersChildren(Initial(stored))
    ensures EffectStep(Initial(stored), base, decode, send) == Session(stored, None, stored, false, None)
  {
  }

  /** Start-up with a token whose user is fetched: authenticated as that user, store unchanged. */
  lemma MountWithResolvableToken(jwt: string, base: string, decode: string -> Option<Payload>,
                                 send: Request -> Reply<User>, segment: string, id: string, u: User)
    requires TokenSegment(jwt) == Some(segment)
    requires decode(segment).Some? && decode(segment).value.userId == Some(id) && id != ""
    requires Classify(send(UserRequest(base, Some(jwt), id))) == Success(Some(u))
    ensures EffectStep(Initial(Some(jwt)), base, decode, send) == Session(Some(jwt), Some(u), Some(jwt), false, None)
  {
  }

  /** Start-up with a non-empty token that carries no claim: store, token and user are all cleared. */
  lemma MountWithClaimlessToken(jwt: string, base: string, decode: string -> Option<Payload>,
                                send: Request -> Reply<User>)
    requires jwt != "" && ClaimedUserId(jwt, decode).None?
    ensures EffectStep(Initial(Some(jwt)), base, decode, send) == Session(None, None, None, false, None)
  {
  }

  /** Start-up with a claimed user whose fetch fails: store, token and user are all cleared. */
  lemma MountWithFailedFetch(jwt: string, base: string, decode: string -> Option<Payload>,
                             send: Request -> Reply<User>, id: string)
    requires ClaimedUserId(jwt, decode) == Some(id)
    requires Classify(send(UserRequest(base, Some(jwt), id))).Failure?
    ensures EffectStep(Initial(Some(jwt)), base, decode, send) == Session(None, None, None, false, None)
  {
  }

  /**
   * Once children render after start-up, a present user comes with the
   * original truthy token still in memory and in the store.
   */
  lemma MountedUserHasToken(stored: Option<string>, base: string, decode: string -> Option<Payload>,
                            send: Request -> Reply<User>)
    ensures var t := EffectStep(Initial(stored), base, decode, send);
      RendersChildren(t) && (t.user.Some? ==> Truthy(stored) && t.token == t.stored == stored)
  {
  }

  /** A login rejected with a message throws exactly that message and leaves the session alone. */
  lemma LoginRejected(s: Session, status: nat, data: LoginData, message: string)
    requires !Ok(status) && message != ""
    ensures LoginOutcome(Reply(status, Json(data, Some(message)))) == Failure(Thrown(message))
    ensures LoginStep(s, LoginOutcome(Reply(status, Json(data, Some(message))))) == s
  {
  }

  /** The provider: React state plus the shared token store. */
  class AuthProvider {
    const store: TokenStore
    const base: string
    var user: Option<User>
    var token: Option<string>
    var loading: bool
    var route: Option<string>
    /** The `token` the effect last ran for, as React records it; `None` before the first render. */
    var effectRan: Option<Option<string>>

    ghost function State(): Session
      reads this, store
    {
      Session(store.item, user, token, loading, route)
    }

    /** `useState` initial values: no user, the stored token, loading. */
    constructor (store: TokenStore, base: string)
      ensures this.store == store && this.base == base
      ensures State() == Initial(store.item) && effectRan == None
    {
      var stored := store.Get();
      this.store := store;
      this.base := base;
      user := None;
      token := stored;
      loading := true;
      route := None;
      effectRan := None;
    }

    /** `fetchAndSetUser(jwtToken)`. */
    method FetchAndSetUser(jwt: string, decode: string -> Option<Payload>, send: Request -> Reply<User>)
      modifies this, store
      ensures State() == Resolution(old(State()), base, jwt, decode, send)
      ensures effectRan == old(effectRan)
    {
      var failed := true;
      var claimed := ClaimedUserId(jwt, decode);
      if claimed.Some? {
        var sent, fetched := ApiRequest(store, base, UserPath(claimed.value), "GET", None, send);
        if fetched.Success? {
          user := fetched.value;
          failed := false;
        }
      }
      if failed {
        store.Remove();
        token := None;
        user := None;
      }
      loading := false;
    }

    /** The `useEffect` keyed on `token`. */
    method Effect(decode: string -> Option<Payload>, send: Request -> Reply<User>)
      modifies this, store
      ensures State() == EffectStep(old(State()), base, decode, send)
      ensures effectRan == old(effectRan)
    {
      if Truthy(token) {
        FetchAndSetUser(token.value, decode, send);
      } else {
        loading := false;
      }
    }

    /**
     * A render (the first one mounts the provider): the effect runs when
     * `token` differs from the one it last ran for, and React records the
     * `token` of this render either way.
     */
    method Render(decode: string -> Option<Payload>, send: Request -> Reply<User>)
      modifies this, store
      ensures State() == AfterRender(old(effectRan), old(State()), base, decode, send)
      ensures effectRan == Some(old(token))
    {
      if effectRan != Some(token) {
        effectRan := Some(token);
        Effect(decode, send);
      }
    }

    /** `login(credentials)`; the thrown error is returned as `Failure`. */
    method Login(send: Request -> Reply<LoginData>) returns (r: Result<(), Error>)
      modifies this, store
      ensures effectRan == old(effectRan)
      ensures var outcome := LoginOutcome(send(LoginRequest(base)));
        State() == LoginStep(old(State()), outcome) &&
        r == if outcome.Success? then Success(()) else Failure(outcome.error)
    {
      var sent, outcome := ApiLogin(store, base, send);
      if outcome.Failure? {
        r := Failure(outcome.error);
        return;
      }
      user := Some(outcome.value.user);
      token := outcome.value.token;
      store.Set(StoredText(outcome.value.token));
      route := Some(AppRoute);
      r := Success(());
    }

    /** `register(userData)`: creates a user; the session is not touched. */
    method Register<T>(send: Request -> Reply<T>) returns (r: Result<(), Error>)
      ensures var outcome := Classify(send(Request(base + UsersPath, "POST", AuthHeaders(store.item))));
        r == if outcome.Success? then Success(()) else Failure(outcome.error)
    {
      var sent, created := ApiCreateUser(store, base, send);
      if created.Failure? {
        r := Failure(created.error);
      } else {
        r := Success(());
      }
    }

    /** `logout()`. */
    method Logout()
      modifies this, store
      ensures State() == LogoutStep(old(State()))
      ensures effectRan == old(effectRan)
    {
      ApiLogout(store);
      user := None;
      token := None;
      route := Some(WelcomeRoute);
    }
  }
}
