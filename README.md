# Session layer of the Accessy iOS client, in Dafny

This project models two pieces of the iOS client's session layer and proves
properties of them.

- **JWT expiry inspection** (`JWT.decodePayload`, `JWT.isExpired`,
  `JWT.isValid`). The token is split on `.` the way Swift's
  `split(separator:)` does it, so empty pieces are dropped. The second piece
  is base64url-decoded and then JSON-decoded into a payload with an optional
  `exp`. The signature is never checked. Any failure, or a missing `exp`,
  counts as expired, and `exp <= now` is expired. The two decoders are
  abstract partial functions (`Jwt.Decoders`). The clock reading `now` is a
  parameter.
- **Token refresh** (`TokenRefreshService` and its `RefreshCoordinator`
  actor).
  - `getValidToken` answers from the stored credentials while their token is
    valid. `forceRefresh` always refreshes.
  - A refresh goes through the single-flight gate. The gate is a class whose
    only real state in Swift is the optional `refreshTask` handle. It is
    driven by three events: `Request` (a call runs up to its `await`),
    `Settle` (the task's operation finishes) and `Resume` (a suspended call
    continues; the creating call's `defer` clears the handle).
  - The refresh operation loads the key, makes the proof, logs in, builds
    the new credentials, saves them and returns the token. It is specified
    by the function `TokenRefresh.RefreshRun`.
  - The collaborators are the keychain, `Signing`, the API client and the
    credentials store. They are one `Collaborators` object. A `Behaviour`
    value decides what each call answers, and every call goes into a log.

Files: `outcomes.dfy` (Option and Result), `session.dfy` (errors and
credentials), `jwt.dfy`, `refresh_coordinator.dfy` and
`token_refresh_service.dfy`.

Behaviour of the code worth knowing; the model follows it:
- A failed `save` makes the whole refresh fail with the save's error, and no
  token is returned (`TokenRefreshService.swift:65`). The code has no path
  that returns the new token with a storage warning.
- The refreshed `Credentials` is built without a `loginKeyIdentifier`
  (`TokenRefreshService.swift:58-64`). The model does not claim the
  identifier survives a refresh. Whatever the initialiser puts there is the
  parameter `Session.KeyIdentifierRule`.
- The handle is cleared when the creating call resumes (the `defer`), not
  when the task settles. A request that arrives in between joins the task
  that has already settled and gets its outcome
  (`Coordination.JoinBetweenSettleAndClear`).
- The token needs two non-empty pieces, not three segments. `"h..s"` decodes
  the signature piece `s` as the payload
  (`Jwt.EmptyPayloadSegmentSkipped`). `".p"` is rejected
  (`Jwt.EmptyHeaderRejected`).

## Model

| member | source | states |
|---|---|---|
| `Jwt.Split` | ios/App/Accessy/Crypto/JWT.swift:7 | every piece is non-empty and contains no separator (Swift drops empty subsequences) |
| `Jwt.SplitJoin` | ios/App/Accessy/Crypto/JWT.swift:7 | splitting undoes joining with the separator, for any non-empty separator-free pieces |
| `Jwt.SplitKeepsAllElse` | ios/App/Accessy/Crypto/JWT.swift:7 | the pieces, concatenated, are the token with its separators removed and nothing else lost |
| `Jwt.DecodePayload` | ios/App/Accessy/Crypto/JWT.swift:6-19 | `invalidKeyFormat` exactly when there are fewer than 2 pieces or the second is not base64url; a JSON error exactly when base64 succeeded and JSON failed; a payload only as the JSON decoding of the base64 decoding of the second piece |
| `Jwt.DecodeSegment` | ios/App/Accessy/Crypto/JWT.swift:13-18 | `invalidKeyFormat` exactly when the segment is not base64url; a JSON error exactly when base64 succeeded and JSON failed; otherwise the JSON decoding of the base64 decoding |
| `Jwt.IsExpired` | ios/App/Accessy/Crypto/JWT.swift:24-33 | not expired exactly when the payload decodes, has `exp`, and `now < exp` |
| `Jwt.IsValid` | ios/App/Accessy/Crypto/JWT.swift:38-40 | valid exactly when the payload decodes, carries `exp`, and `now < exp`; and always the negation of `IsExpired` |
| `Jwt.OnlySecondPieceDecoded` | ios/App/Accessy/Crypto/JWT.swift:12 | two tokens with the same second piece decode to the same result |
| `Jwt.SignatureNeverInspected` | ios/App/Accessy/Crypto/JWT.swift:5-18 | for `header.payload.signature`, the result is that of decoding `payload`, whatever the signature is |
| `Jwt.EmptyPayloadSegmentSkipped` | ios/App/Accessy/Crypto/JWT.swift:7-12 | in `header..signature` the empty piece is dropped, and the signature is decoded as the payload |
| `Jwt.EmptyHeaderRejected` | ios/App/Accessy/Crypto/JWT.swift:7-10 | `.payload` has one piece and fails with `invalidKeyFormat` |
| `Jwt.JsonNotReachedOnBadBase64` | ios/App/Accessy/Crypto/JWT.swift:13-15 | if the second piece is not base64url, the result is `invalidKeyFormat` whatever the JSON decoder does |
| `Jwt.UndecodableIsExpired` | ios/App/Accessy/Crypto/JWT.swift:25-29 | a token whose payload fails to decode is expired (fail-closed) |
| `Jwt.MissingExpIsExpired` | ios/App/Accessy/Crypto/JWT.swift:25-29 | a payload without `exp` is expired |
| `Jwt.ExpiryBoundary` | ios/App/Accessy/Crypto/JWT.swift:31-32 | with `exp` present, expired is exactly `exp <= now`, so `exp == now` is expired |
| `Jwt.ExpiryIsMonotonic` | ios/App/Accessy/Crypto/JWT.swift:31-32 | a token expired at `now` is expired at every later time |
| `Jwt.ExpiredSampleToken` | ios/App/Accessy/Crypto/JWT.swift:24-33 | `eyJhbGciOiJub25lIn0.eyJleHAiOjF9.sig`, whose payload is `{"exp":1}`, is expired at every time from second 1 on |
| `Session.Refreshed` | ios/App/Services/TokenRefreshService.swift:58-64 | the new credentials equal the input except for the token, which is the login response's, and the key identifier, which is the initialiser's choice; device, user, certificate and demo flag are copied |
| `TokenRefresh.Loaded` | ios/App/Services/TokenRefreshService.swift:21 | loading succeeds exactly when credentials are stored, and yields them; otherwise it fails with `NotLoggedIn` |
| `TokenRefresh.RefreshRun` | ios/App/Services/TokenRefreshService.swift:44-68 | first call is the key load for `loginKeyIdentifier`; each later call happens only after the previous one succeeded; the proof is made from `certBase64` and the loaded key, login uses that proof, save comes last and only after a successful login; saved credentials copy the identity fields; success exactly when all four steps succeed, and a failed run's last step is the one that threw; on success the returned token is the saved one |
| `TokenRefresh.RunCounts` | ios/App/Services/TokenRefreshService.swift:44-68 | one refresh makes one login exactly when it got past the proof, and one save exactly when the login succeeded; never more |
| `TokenRefresh.RefreshFailsWithFirstError` | ios/App/Services/TokenRefreshService.swift:46-65 | a failed refresh fails with exactly the error thrown by its last step |
| `TokenRefresh.RejectedLoginWritesNothing` | ios/App/Services/TokenRefreshService.swift:55-65 | a rejected login ends the refresh with that error, nothing is written and no save is attempted |
| `TokenRefresh.ValidTokenPlan` | ios/App/Services/TokenRefreshService.swift:20-30 | a load error propagates; the answer is the stored token, unchanged, exactly when it is valid; otherwise the loaded credentials are refreshed |
| `TokenRefresh.ForceRefreshPlan` | ios/App/Services/TokenRefreshService.swift:35-38 | the loaded credentials are refreshed whenever the load succeeds; otherwise the load error propagates |
| `TokenRefresh.InvalidTokenMeansForceRefresh` | ios/App/Services/TokenRefreshService.swift:20-38 | on a load error or invalid credentials, `getValidToken` does exactly what `forceRefresh` does |
| `TokenRefresh.FastPathOnlyEarlier` | ios/App/Services/TokenRefreshService.swift:24-26 | if the fast path answers at `now`, it gives the same answer at every earlier time |
| `TokenRefresh.Collaborators.Load` | ios/App/Services/TokenRefreshService.swift:21 | logs one load and returns the stored credentials or `NotLoggedIn` |
| `TokenRefresh.Collaborators.LoadKey` | ios/App/Services/TokenRefreshService.swift:46 | logs one key load and returns the key store's answer |
| `TokenRefresh.Collaborators.CreateProof` | ios/App/Services/TokenRefreshService.swift:49-52 | logs one signing call and returns the signer's answer |
| `TokenRefresh.Collaborators.Login` | ios/App/Services/TokenRefreshService.swift:55 | logs one login and returns the API's answer |
| `TokenRefresh.Collaborators.Save` | ios/App/Services/TokenRefreshService.swift:65 | logs one save; the store holds the credentials afterwards unless the write failed |
| `TokenRefresh.TokenRefreshService.Follow` | ios/App/Services/TokenRefreshService.swift:24-29 | an answer returns without touching the gate; a refresh is exactly one request to the gate |
| `TokenRefresh.TokenRefreshService.GetValidToken` | ios/App/Services/TokenRefreshService.swift:20-30 | loads once; then either returns the plan's answer with the gate unchanged, or requests a refresh of the loaded credentials |
| `TokenRefresh.TokenRefreshService.ForceRefresh` | ios/App/Services/TokenRefreshService.swift:35-38 | loads once; then either returns the load error, or requests a refresh of the loaded credentials |
| `TokenRefresh.TokenRefreshService.RefreshOperation` | ios/App/Services/TokenRefreshService.swift:45-67 | makes exactly the calls of `RefreshRun`, returns its outcome, and leaves in the store what it wrote |
| `TokenRefresh.TokenRefreshService.RunTask` | ios/App/Services/TokenRefreshService.swift:85-87 | runs the task's operation on the creating call's credentials and settles the task with its outcome |
| `TokenRefresh.TokenRefreshService.Resume` | ios/App/Services/TokenRefreshService.swift:78-96 | a suspended call returns the outcome of the task it awaited; a creating call clears the handle |
| `Coordination.RefreshCoordinator.constructor` | ios/App/Services/TokenRefreshService.swift:75-76 | the gate starts idle, with no handle |
| `Coordination.RefreshCoordinator.Request` | ios/App/Services/TokenRefreshService.swift:80-89 | in flight: joins the existing task and starts nothing; idle: creates exactly one task and records its handle before suspending |
| `Coordination.RefreshCoordinator.Settle` | ios/App/Services/TokenRefreshService.swift:85-87 | only the task the handle names can be running; settling changes only its status |
| `Coordination.RefreshCoordinator.Resume` | ios/App/Services/TokenRefreshService.swift:81-95 | a call returns its task's outcome, success or error; the creating call's `defer` leaves the handle nil |
| `Coordination.ConcurrentCallersShareOneTask` | ios/App/Services/TokenRefreshService.swift:78-96 | three calls made before the task settles create one task, which runs the first call's operation, and all three get its outcome |
| `Coordination.SequentialRefreshesBothRun` | ios/App/Services/TokenRefreshService.swift:91-95 | a request made after the previous call returned starts a new task and gets its own outcome |
| `Coordination.JoinBetweenSettleAndClear` | ios/App/Services/TokenRefreshService.swift:80-93 | a request after the task settled, but before its creator resumed, joins it and gets its outcome; a request after the creator resumed starts a new task |
| `TokenRefresh.ConcurrentGetValidToken` | ios/App/Services/TokenRefreshService.swift:20-96 | three `getValidToken` calls on expired credentials all return the one refresh operation's outcome, with at most one login and at most one save |
| `TokenRefresh.ValidTokenFastPath` | ios/App/Services/TokenRefreshService.swift:21-26 | with a valid stored token, `getValidToken` returns it after a single load and creates no task |
| `TokenRefresh.NotLoggedInFailsFast` | ios/App/Services/TokenRefreshService.swift:20-37 | with nothing stored, both entry points fail with `NotLoggedIn` after one load each, and no task is created |
| `TokenRefresh.ForceRefreshIgnoresValidity` | ios/App/Services/TokenRefreshService.swift:35-38 | `forceRefresh` returns the refresh operation's outcome whatever the stored token |

## Left out

- Real base64url and JSON decoding (`Encryption.safeB64Decode`, `JSONDecoder`, `JWTPayload`): not part of this model. They are the abstract partial functions of `Jwt.Decoders`. The only claim read is `exp`.
- `Date()` and `TimeInterval`: the clock is the integer parameter `now`, in whole seconds, and `exp` is an integer. For an integer `exp`, comparing it with the floor of the real clock gives the same answer as comparing it with the clock. The conversion of `exp` to a double is taken to be exact.
- Swift `Character` semantics: the model splits on characters (code points), not grapheme clusters. A `.` followed by a combining mark would not count as a separator in Swift.
- `Credentials.isValid` is not part of this model. It is taken to be `JWT.isValid(authToken)` at the current time.
- `CredentialsService.load()`: modelled as failing only with `NotLoggedIn`, when nothing is stored. Its internals are not part of this model.
- `KeychainService`, `Signing.createProof`, `APIClient.login` and `credentialsService.save`: they are not part of this model. Each is a function of its arguments in `TokenRefresh.Behaviour`, so two logins with the same proof get the same answer.
- The `Credentials` initialiser's choice of `loginKeyIdentifier` is a parameter (`Session.KeyIdentifierRule`). Nothing is claimed about it.
- Swift concurrency:
  - Actor scheduling, task cancellation and timeouts are not modelled. A cancelled operation is just one more error outcome passed to `Settle`.
  - The refresh operation runs as one event (`RunTask`). Its internal suspension points are not interleaved with other events.
  - The task's start is a separate event that may come at any time after the creating request.
- Widgets, App Intents, `SharedDoorStore` and `DoorEntity`: outside the session layer.
