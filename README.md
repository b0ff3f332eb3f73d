# Auth session and API client of the employee-management front end

This project models the client-side session handling of an employee-management web
application in Dafny and proves properties of it. The model covers two source files.

- `services/api.ts` is the API client. It keeps one bearer token in browser storage under
  `authToken`. It builds the default request headers: JSON content, plus
  `Authorization: Bearer <token>` when a token is stored. `apiRequest` turns a response into a
  value or a thrown error. `apiLogin`, `apiLogout` and `apiUploadLogo` are modelled, and so are
  the paths of the two endpoints that build a query string (billing records, attendance).
- `context/AuthContext.tsx` is the session manager. `AuthProvider` holds `user`, `token` and
  `loading`. The token effect resolves a token into a user by decoding segment `[1]` and fetching
  the claimed `userId`. `login`, `register` and `logout` change that state, and children render
  only once `loading` is false.

Modules:

- `Wrappers` defines `Option` and `Result`.
- `Text` models `split`/`join` on one separator character and the decimal text of a status code.
- `Api` models `services/api.ts`. The class `TokenStore` is the storage entry. The methods
  `GetAuthHeaders`, `ApiRequest`, `ApiLogin`, `ApiLogout` and `ApiUploadLogo` read or update it
  in place. Pure functions give the headers, the outcome of a reply and the endpoint paths.
- `AuthContext` models `context/AuthContext.tsx`. The class `AuthProvider` updates its fields and
  the shared `TokenStore`. Each method's new state equals a step function applied to the old
  state (`Resolution`, `EffectStep`, `LoginStep`, `LogoutStep`, `AfterRender`). The properties
  are proved about those step functions.

The network, `response.json()`, `atob` and `JSON.parse` are parameters, not code:

- `send: Request -> Reply<T>` is what the server answers to a request. `Reply` is a status with a
  body that was or was not parseable, or `Unreachable` when `fetch` rejects.
- `decode: string -> Option<Payload>` is `JSON.parse(atob(segment))`. It yields `None` when
  either call throws.
- The base URL (`VITE_API_BASE_URL`) is a string parameter.

Behaviour kept as the code has it:

- Only segment `[1]` of a token is decoded. A text with two segments, or with four, is read the
  same way (`AuthContext.MiddleSegment`). A text without a dot has no segment `[1]`: `atob` then
  receives `"undefined"`, which is not valid base64, so resolution fails.
- `apiLogin` does not catch a parse failure of the error body. That failure is what it throws
  (`ParseFailure`), whereas `apiRequest` falls back to `HTTP error! Status: N`.
- `login` stores the returned token a second time and does so unconditionally. A reply without a
  token therefore stores the text `"undefined"` while `token` becomes `undefined`
  (`AuthContext.LoginWithoutTokenDesyncs`).
- The upload error path has no `||` fallback. A parsed error body without `message` throws an
  error whose message is empty.
- The user fetch goes through `apiRequest`. A 204 reply to it sets `user` to null without
  discarding the token (`AuthContext.ResolutionNoContent`).
- `userId`, the billing `userId` and the attendance filters are tested for truthiness. An empty
  string counts as absent.
- The effect runs at the first render and afterwards only when `token` differs from the value
  it last ran for, which `AuthProvider` records in `effectRan` (`AfterRender`). A successful
  login with a new token therefore resolves that token again (`AuthContext.LoginResolvesNewToken`).

Places where a reader might expect more checking than the code does; the model follows the code:

- A reader might expect a token to need exactly three segments; the code accepts any text with
  at least one dot.
- A reader might expect the resolved user's `id` to equal the claimed `userId`; the code accepts
  whatever the fetch returns.
- A reader might expect only `apiLogin` to write the token on login; `login` in the session
  manager writes it again.
- A reader might expect a transport failure to become a generic message; the code propagates
  the rejection of `fetch` itself.

## Model

| member | source | states |
|---|---|---|
| `Api.TokenStore.Get` | services/api.ts:14 | reading the token has no side effect and returns the stored entry |
| `Api.TokenStore.Set` | services/api.ts:40 | storing a token overwrites any previous one |
| `Api.TokenStore.Remove` | services/api.ts:44 | removing leaves the store empty |
| `Api.AuthHeaders` | services/api.ts:16-21 | `Content-Type: application/json` is always present; `Authorization` is present iff the stored token is present and non-empty, and then equals `Bearer <token>`; no other header |
| `Api.GetAuthHeaders` | services/api.ts:16-21 | the map built by conditional insertion equals the default headers for the current store |
| `Api.RequestFor` | services/api.ts:24 | caller-supplied headers are used unchanged; the default auth headers are used only when none are supplied |
| `Api.ApiRequest` | services/api.ts:23-30 | sends base URL + endpoint with the headers above, and its result is the classification of the reply to exactly that request |
| `Api.Classify` | services/api.ts:25-29 | non-2xx throws the body's non-empty `message`, else `HTTP error! Status: <status>` for an unparseable body, else `An unknown server error occurred.`; the thrown message is never empty; 204 yields null; other 2xx yield the parsed body or its parse error; no response gives a network failure |
| `Api.NoContentIgnoresBody` | services/api.ts:29 | a 204 reply yields null whatever its body, so the body is never parsed |
| `Api.ClassifySucceeds` | services/api.ts:25-29 | a request succeeds exactly on a 2xx reply that is a 204 or has a parseable body |
| `Api.HttpErrorText` | services/api.ts:26 | the synthesized message is `HTTP error! Status: ` followed by decimal digits that read back as the status |
| `Api.HttpErrorTextInjective` | services/api.ts:26 | different statuses give different synthesized messages |
| `Api.UnparseableErrorsDistinguishStatus` | services/api.ts:25-27 | two failed replies with unparseable bodies throw the same message only if their statuses are equal |
| `Api.ApiCreateUser` | services/api.ts:43 | a POST to `/users` with the default auth headers, classified like every request |
| `Api.UserPath` | services/api.ts:46 | the user path is `/users/` followed by the id itself |
| `Api.LoginRequest` | services/api.ts:37 | the login request is a POST to `/auth/login` whose only header is `Content-Type`; it never carries `Authorization` |
| `Api.LoginOutcome` | services/api.ts:38-41 | success iff a 2xx reply with a parseable body, returning that body; a parseable error body throws its non-empty `message` or `Login failed.`; an unparseable body throws its parse error |
| `Api.ApiLogin` | services/api.ts:36-42 | the store takes the returned token only on success and only if it is truthy; on failure the store is unchanged |
| `Api.ApiLogout` | services/api.ts:44 | the store is empty afterwards whatever it held, and the call cannot fail |
| `Api.UploadOutcome` | services/api.ts:104-105 | success iff a 2xx reply with a parseable body; an unparseable error body throws `Failed to upload logo.`; a parsed one throws its `message` (empty when missing) |
| `Api.ApiUploadLogo` | services/api.ts:98-106 | upload headers are the default headers minus `Content-Type`; `Authorization` is kept exactly when a non-empty token is stored |
| `Api.BillingPath` | services/api.ts:66 | the path starts with `/billing-records` and has a query iff `userId` is non-empty; otherwise it is the plain path |
| `Api.BillingQuery` | services/api.ts:66 | for a non-empty id containing no `?`, the path splits at `?` into `/billing-records` and `userId=<id>` (the id is not URL-encoded) |
| `Api.AttendancePath` | services/api.ts:88 | the path starts with `/attendance?`; with no filters it is `/attendance?userId=&date=` |
| `Api.FilterUserId` | services/api.ts:88 | `filters?.userId \|\| ''`: the id when filters are given and the id is non-empty, the empty text otherwise |
| `Api.FilterDate` | services/api.ts:88 | `filters?.date \|\| ''`: the date when filters are given and the date is non-empty, the empty text otherwise |
| `Api.AttendanceQuery` | services/api.ts:88 | when neither filter value contains `&`, the query splits into exactly a `userId=` and a `date=` field holding the filter values, empty when absent (values are not URL-encoded, so an `&` inside a value adds fields) |
| `Text.Split` | context/AuthContext.tsx:33 | `split` gives at least one piece, no piece contains the separator, and there is a single piece iff the text has no separator |
| `Text.JoinSplit` | context/AuthContext.tsx:33 | joining the pieces of a split restores the text |
| `Text.SplitJoin` | context/AuthContext.tsx:33 | splitting a join of separator-free pieces restores the pieces |
| `Text.NatToString` | services/api.ts:26 | the status text is a non-empty run of decimal digits without a leading zero |
| `Text.ParseNatToString` | services/api.ts:26 | the status text reads back as the status |
| `Text.NatToStringInjective` | services/api.ts:26 | distinct statuses have distinct texts |
| `AuthContext.Initial` | context/AuthContext.tsx:26-28 | initially `token` equals the stored token, `user` is absent and `loading` is true |
| `AuthContext.TokenSegment` | context/AuthContext.tsx:33 | segment `[1]` exists iff the token contains a dot, and it contains no dot |
| `AuthContext.MiddleSegment` | context/AuthContext.tsx:33 | segment `[1]` is the text between the first two dots, for two segments as for three or more |
| `AuthContext.RendersChildren` | context/AuthContext.tsx:82 | children are rendered exactly when `loading` is false |
| `AuthContext.ClaimedUserId` | context/AuthContext.tsx:33-34 | there is a claimed id exactly when segment `[1]` exists, decodes, and has a truthy `userId`; the id is that decoded `userId` |
| `AuthContext.UserRequest` | context/AuthContext.tsx:35 | the user fetch is a GET of `/users/<id>` with the default auth headers of the current store |
| `AuthContext.ResolvedUser` | context/AuthContext.tsx:33-39 | a user is handed to `setUser` only when the token carries a truthy claim |
| `AuthContext.Resolution` | context/AuthContext.tsx:31-48 | `loading` ends false; on success only `user` changes and the store and `token` are unchanged; on any failure the store, `token` and `user` are all cleared |
| `AuthContext.ResolutionSucceeds` | context/AuthContext.tsx:33-36 | when segment `[1]` decodes to a non-empty `userId` whose fetch returns a user, `user` becomes that user and nothing else changes but `loading` |
| `AuthContext.ResolutionNoContent` | context/AuthContext.tsx:35-36 | when the user fetch answers 204, `user` becomes null while `token` and the store are kept |
| `AuthContext.ResolutionRejectsClaimless` | context/AuthContext.tsx:33-44 | no segment `[1]`, an undecodable segment, or a missing or empty `userId` leaves the store, `token` and `user` empty |
| `AuthContext.ResolutionRejectsFailedFetch` | context/AuthContext.tsx:35-44 | a failed user fetch leaves the store, `token` and `user` empty |
| `AuthContext.EffectStep` | context/AuthContext.tsx:50-56 | `loading` ends false; a truthy token is resolved by `fetchAndSetUser` (the result is `Resolution` of that token); with a falsy token nothing else changes; either way the store and `token` survive together or are cleared together with `user` |
| `AuthContext.AfterRender` | context/AuthContext.tsx:50-56 | the first render runs the effect; a later one runs it exactly when `token` differs from the value it last ran for, and otherwise changes nothing |
| `AuthContext.StoredText` | context/AuthContext.tsx:62 | `setItem` stores the token itself, or the text `undefined` when the reply had none |
| `AuthContext.LoginStep` | context/AuthContext.tsx:58-64 | on success `user` and `token` are the returned ones, the store holds the token and the route is `/app`; on failure nothing changes |
| `AuthContext.LogoutStep` | context/AuthContext.tsx:71-76 | the store, `user` and `token` are cleared and the route is `/welcome`; `loading` is untouched |
| `AuthContext.SyncedPreserved` | context/AuthContext.tsx:26-76 | start-up, the effect, a render, logout and every login except one whose reply lacks a token keep the store equal to `token` |
| `AuthContext.LoginWithoutTokenDesyncs` | context/AuthContext.tsx:59-62 | a login reply without a token leaves `token` absent (`undefined`) but stores the text `undefined` |
| `AuthContext.LogoutIdempotent` | context/AuthContext.tsx:71-76 | logging out twice, with the effect each triggers, gives the same state as logging out once |
| `AuthContext.EffectSettles` | context/AuthContext.tsx:42-56 | when the effect discards the token, the render that follows runs it once more and changes nothing |
| `AuthContext.LoginResolvesNewToken` | context/AuthContext.tsx:50-61 | a login with a new truthy token is followed by resolution of that token |
| `AuthContext.MountWithoutToken` | context/AuthContext.tsx:26-56 | with no stored token, or an empty one, nothing renders at first; after the effect the session is anonymous with `loading` false |
| `AuthContext.MountWithResolvableToken` | context/AuthContext.tsx:26-56 | a stored token whose claimed user is fetched ends authenticated as that user with the store unchanged |
| `AuthContext.MountWithClaimlessToken` | context/AuthContext.tsx:26-56 | a non-empty stored token with no claimed user ends with the store, `token` and `user` cleared and `loading` false |
| `AuthContext.MountWithFailedFetch` | context/AuthContext.tsx:26-56 | a stored token whose claimed user cannot be fetched ends with the store, `token` and `user` cleared and `loading` false |
| `AuthContext.MountedUserHasToken` | context/AuthContext.tsx:26-82 | after start-up children render, and a present user comes with the original truthy token in memory and in the store |
| `AuthContext.LoginRejected` | services/api.ts:38 | a rejected login throws exactly the server's message and leaves the session unchanged |
| `AuthContext.AuthProvider.constructor` | context/AuthContext.tsx:26-28 | the provider starts in the initial state of the current store, with the effect not yet run |
| `AuthContext.AuthProvider.FetchAndSetUser` | context/AuthContext.tsx:31-48 | the in-place update performs `Resolution` |
| `AuthContext.AuthProvider.Effect` | context/AuthContext.tsx:50-56 | the in-place update performs `EffectStep` |
| `AuthContext.AuthProvider.Render` | context/AuthContext.tsx:50-56 | a render runs the effect when `token` differs from the value recorded at the effect's last run, and records the current `token` |
| `AuthContext.AuthProvider.Login` | context/AuthContext.tsx:58-64 | the in-place update performs `LoginStep` on the outcome of `apiLogin`, and the thrown error is returned unchanged |
| `AuthContext.AuthProvider.Register` | context/AuthContext.tsx:66-69 | register changes no session field or store entry, and reports exactly the outcome of the create-user request |
| `AuthContext.AuthProvider.Logout` | context/AuthContext.tsx:71-76 | the in-place update performs `LogoutStep` |

## Left out

- `fetch`, `response.json()`, `JSON.parse` and `atob` are foreign calls. They are the parameters `send` and `decode`, and the engine's messages for a parse failure or a network failure are not modelled.
- Request bodies (`JSON.stringify` of the credentials and the new user, and the `FormData` of the upload) are not part of `Request`, so `Login` and `Register` take no credentials or user data.
- The missing-configuration `console.error`/`alert` (services/api.ts:9-12) is start-up I/O with no state effect.
- `console.error` in `fetchAndSetUser` and `console.log` in `register` are logging only.
- The other CRUD wrappers (services/api.ts:45-95) are not modelled one by one. Each calls `apiRequest`, which is modelled, with a path that may embed an id, a method and possibly a JSON body; only the two query-string builders and the user-by-id path are modelled. `getLogoUrl` (services/api.ts:107) is the same base-URL concatenation that `ApiUploadLogo` uses.
- A `userId` claim that is a JSON number rather than a string is not modelled.
- `Body.Json` assumes every parseable body is an object whose `message` is a string or missing, and whose value has the shape the caller expects. Not modelled: a body that parses to `null` (then `errorData.message` or `data.token` throws a `TypeError`, and a 2xx user fetch sets `user` to null); a non-string `message` such as `42` (which `new Error` turns into text); a login body without a `user`.
- `LoginData.token == None` means the reply has no `token` field, so `setToken` receives `undefined` and `setItem` stores the text `undefined`. A reply whose `token` is JSON `null` is not modelled: the source stores the text `null` for it.
- `AfterRender` compares `token` values of the model, in which `null` and `undefined` are the same `None`. React compares dependencies with `Object.is`, so a change of `token` from `null` to `undefined` (a login reply without a token right after start-up with an empty store) re-runs the effect in the source. That re-run is not modelled; with a falsy token it only sets `loading` to false.
- Concurrent or overlapping `login` calls and asynchronous interleaving are out of scope: every operation is one atomic step.
- React rendering is reduced to one rule: the effect re-runs when `token` changes. `navigate` is recorded only as the last route.
- The route guard `ProtectedRoute` (used at App.tsx:24) is not modelled; this model covers services/api.ts and context/AuthContext.tsx only. components/Login.tsx, App.tsx, index.tsx and backend/prisma/seed.ts are not part of this model either.
