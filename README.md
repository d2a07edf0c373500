# EV charging stations: a Dafny model of the gateway and the web client's state

This project models the logic of an EV-charging application. The
application has an Express backend and a React/Redux frontend. The
model covers these parts.

**Backend**
- The in-memory bookings store (`MockBookingsService`) and its three HTTP
  handlers.
- The fixed station catalogue and its two handlers.
- The Cognito JWT middleware (`verifyCognitoJwt`, with the JWT library as
  an oracle) and the group gate `requireGroups`.
- The boolean environment parser `readBool` and the `env` record.
- The level filter of the server logger.
- The `getMe` projection.

**Frontend**
- The console logger and its `getLogger` registry.
- The Redux slices `sessions`, `stations`, `health`, `techSupport`,
  `admin` and `auth`. Each is a class with one method per reducer case,
  and each method states the whole new state.
- The `AuthProvider` login, register and logout, and the role flags.
- The `ProtectedRoute` decision, including `encodeURIComponent` and a
  decoder that shows the `redirect` parameter decodes to the requested
  path. The login page itself never reads that parameter: after a login
  it always goes to `/` (frontend/src/auth/Login.tsx:17).
- Navbar's `isActive`, `linkClass` and `roleColors`.

Each source file is one module: `BookingsService`, `BookingsController`,
`StationsService`, `StationsController`, `Auth`, `Config`, `ServerLog`,
`UsersController`, `ClientLog`, `SessionsSlice`, `StationsSlice`,
`HealthSlice`, `TechSupportSlice`, `AdminSlice`, `AuthSlice`,
`AuthContext`, `ProtectedRoute` and `Navbar`. Three modules are shared:
- `Common`: `Option`, `Result`, ASCII case mapping, decimal rendering.
- `Http`: the `{code, data | error}` envelope and `errorHandler`.
- `FrontTypes`: the frontend record types.

Clocks, the network and browser storage become parameters:
- The clock readings are `now` parameters: `Date.now()` for booking ids and
  the ISO time stamp in the health slice.
- The JWT verifier is a function parameter.
- Every thunk's network call is replaced by the payload it delivers to the
  reducer.
- The user restored from `localStorage` at start-up is a constructor
  parameter.

Where the code and the written design differ, the model follows the code:

- **Validation failures answer 500, not 400.** A failed `zod` parse throws.
  Its error reaches `errorHandler`, which always answers 500. See
  `BookingsController.BookingsController.CreateBooking`,
  `BookingsController.BookingsController.CancelBooking` and
  `StationsController.GetStation`.
- **A misconfigured verifier answers 401, not 500.** `getJwks()` runs inside
  the `try` of `verifyCognitoJwt`, so its configuration error is caught and
  answered like a bad token (`Auth.Authenticate`).
- **Any array is accepted as `cognito:groups`.** It is not checked to hold
  only strings. `requireGroups` then compares by strict equality, so
  non-string elements never match (`Auth.UserFromClaims`, `Auth.AnyAllowed`).
- **Booking ids are not unique.** They are `bk-` followed by the millisecond
  clock, and two bookings made in the same millisecond share an id
  (`BookingsService.BookingIdCollision`). Of two bookings of one owner with
  the same id, only the newer can ever be cancelled
  (`BookingsService.DuplicateIdShadowsOlder`).
- **The frontend logger's `warn` logs at the `info` level**, on
  `console.log`. Its messages are therefore dropped at levels `warn` and
  `error` (`ClientLog.Logger.Warn`).

## Model

| member | source | states |
|---|---|---|
| `BookingsService.BookingId` | backend/src/modules/bookings/bookings.service.ts:18 | a generated id is `bk-` followed by at least one digit |
| `BookingsService.BookingIdCollision` | backend/src/modules/bookings/bookings.service.ts:18 | two ids are equal exactly when the clock readings are equal, so uniqueness rests on the clock alone |
| `BookingsService.OwnedBy` | backend/src/modules/bookings/bookings.service.ts:13 | the owner's list is no longer than the store and holds only the owner's stored bookings |
| `BookingsService.OwnedByCounts` | backend/src/modules/bookings/bookings.service.ts:13 | each of the owner's bookings appears in the owner's list exactly as often as in the store; any other booking appears 0 times |
| `BookingsService.OwnedByAppend` | backend/src/modules/bookings/bookings.service.ts:13 | the filter distributes over concatenation, so the store's order is kept |
| `BookingsService.OwnedByPrepend` | backend/src/modules/bookings/bookings.service.ts:13-25 | a booking put in front heads its owner's list and leaves every other owner's list unchanged |
| `BookingsService.MatchIndex` | backend/src/modules/bookings/bookings.service.ts:30 | `findIndex` is -1 exactly when no booking matches both owner and id; otherwise it is the first match |
| `BookingsService.CancelledAt` | backend/src/modules/bookings/bookings.service.ts:32 | the entry at the index gets status cancelled; length and all other entries are unchanged |
| `BookingsService.CancelIsolation` | backend/src/modules/bookings/bookings.service.ts:29-34 | cancelling one owner's booking leaves every other owner's list exactly as it was |
| `BookingsService.CancelIdempotent` | backend/src/modules/bookings/bookings.service.ts:30-33 | a second cancel finds the same index and leaves the list as the first cancel left it |
| `BookingsService.DuplicateIdShadowsOlder` | backend/src/modules/bookings/bookings.service.ts:18-32 | with two matching bookings, the lookup stops at or before the newer one, before and after cancelling it, so the older is never touched |
| `BookingsService.MockBookingsService.constructor` | backend/src/modules/bookings/bookings.service.ts:10 | the store starts empty |
| `BookingsService.MockBookingsService.ListForUser` | backend/src/modules/bookings/bookings.service.ts:12-14 | returns the store filtered by owner, in store order |
| `BookingsService.MockBookingsService.Create` | backend/src/modules/bookings/bookings.service.ts:16-27 | returns a booking with the given owner, the request's station and slot, and status created; the new store is that booking followed by the old store; every id stays generated |
| `BookingsService.MockBookingsService.Cancel` | backend/src/modules/bookings/bookings.service.ts:29-34 | true exactly when some booking matches owner and id; then the first match becomes cancelled; otherwise the store is unchanged |
| `BookingsController.ParseCreate` | backend/src/modules/bookings/bookings.controller.ts:5-9 | parsing succeeds exactly when all three fields are non-empty strings, and copies them |
| `BookingsController.BookingsController.constructor` | backend/src/modules/bookings/bookings.controller.ts:12 | the controller uses the service it is given |
| `BookingsController.BookingsController.ListMyBookings` | backend/src/modules/bookings/bookings.controller.ts:14-20 | no subject gives 401 Unauthorized; otherwise 200 with the caller's bookings |
| `BookingsController.BookingsController.CreateBooking` | backend/src/modules/bookings/bookings.controller.ts:22-29 | identity is checked before the body (401); an invalid body gives 500 through the error handler and creates nothing; 201 exactly when both checks pass, with the created booking placed at the front of the store |
| `BookingsController.BookingsController.CancelBooking` | backend/src/modules/bookings/bookings.controller.ts:31-40 | 401 with no subject, then 500 for an empty id; 404 `Booking not found` when nothing matches, store unchanged; else 200 `{bookingId, cancelled}` with the first match cancelled |
| `BookingsController.CreateCancelScenario` | backend/src/modules/bookings/bookings.controller.ts:22-40 | create as u1 gives 201; cancel as u1 gives 200; the same cancel as u2 gives 404 |
| `StationsService.List` | backend/src/modules/stations/stations.service.ts:11-18 | the catalogue is exactly st-001 Demo Station 1 (available), then st-002 Demo Station 2 (busy), neither with an address |
| `StationsService.CatalogIdsDistinct` | backend/src/modules/stations/stations.service.ts:12-13 | the catalogue's station ids are pairwise distinct |
| `StationsService.Find` | backend/src/modules/stations/stations.service.ts:21 | `find` is None exactly when no station has the id; otherwise it is the first station with that id |
| `StationsService.GetById` | backend/src/modules/stations/stations.service.ts:20-22 | a result has the asked id and comes from the catalogue; null exactly when no catalogue station has the id |
| `StationsService.GetByIdExamples` | backend/src/modules/stations/stations.service.ts:11-22 | st-001 and st-002 are found; any other id is not |
| `StationsController.ListStations` | backend/src/modules/stations/stations.controller.ts:10-13 | always 200 with the catalogue |
| `StationsController.GetStation` | backend/src/modules/stations/stations.controller.ts:15-22 | a missing or empty id gives 500 through the error handler; 404 `Station not found` exactly for an unknown id; 200 exactly for a known one, with that station |
| `StationsController.GetStationOutcomes` | backend/src/modules/stations/stations.controller.ts:15-22 | st-001 is answered 200 with its station; any other non-empty id except st-002 gets 404 |
| `Http.ErrorHandler` | backend/src/middlewares/errorHandler.ts:3-16 | always 500; the message is the error's own message, or `Unexpected error` for a thrown non-Error |
| `Config.ReadBool` | backend/src/config/env.ts:5-9 | an unset variable gives the default; a set one is true exactly when its lower-case form is 1, true, yes, y or on |
| `Config.ReadBoolDefinedNotTrue` | backend/src/config/env.ts:8 | a set value outside the list is false whatever the default |
| `Config.ReadBoolExamples` | backend/src/config/env.ts:8 | the empty string, 0 and false give false; TRUE, Yes and ON give true |
| `Config.LoadEnv` | backend/src/config/env.ts:11-30 | authDisabled and useLambda come from readBool with defaults true and false; the Cognito fields are the variables or their defaults |
| `Config.LoadEnvDefaults` | backend/src/config/env.ts:17-29 | with nothing set: auth disabled, no lambda, empty pool id, region il-central-1, log level info |
| `Config.AuthEnforcedIff` | backend/src/config/env.ts:22 | authentication is enforced exactly when AUTH_DISABLED is set to a value outside the true words |
| `ServerLog.RanksStrictlyOrdered` | backend/src/utils/logger.ts:3 | debug 10 < info 20 < warn 30 < error 40 |
| `ServerLog.CreateLogger` | backend/src/utils/logger.ts:5-10 | the threshold is the rank of minLevel (default info); `should(l)` holds exactly when rank(l) is at least the threshold |
| `ServerLog.Logger.Emit` | backend/src/utils/logger.ts:17-22 | a record is written exactly when `should` holds; debug and info go to console.log, warn to console.warn, error to console.error |
| `ServerLog.ShouldMonotone` | backend/src/utils/logger.ts:8-10 | if a level is emitted, so is every higher-ranked level |
| `ServerLog.DefaultThreshold` | backend/src/utils/logger.ts:5-10 | by default debug is suppressed and info, warn and error are emitted |
| `ServerLog.ErrorAlwaysEmitted` | backend/src/utils/logger.ts:21 | error is emitted under every minLevel |
| `Auth.Subject` | backend/src/modules/users/users.controller.ts:5 | a subject exists exactly when there is a user with a non-empty `sub`, and it is that `sub` |
| `Auth.JsString` | backend/src/middlewares/auth.ts:65-67 | `String(v)` for each kind of claim value it does not throw on; only a string, a number text or an array can render as the empty string |
| `Auth.OptionalClaim` | backend/src/middlewares/auth.ts:66-67 | email and username are set exactly when the claim is truthy, and then to `String(claim)` |
| `Auth.UserFromClaims` | backend/src/middlewares/auth.ts:60-70 | building fails with "Cannot convert object to primitive value" exactly when `String` throws on sub, email or username; otherwise groups is set exactly when the groups claim is an array, sub is "" for an undefined or null claim and `String(sub)` for any other, email and username are `String(claim)` when truthy, and raw is the payload |
| `Auth.ToStringKeyThrows` | backend/src/middlewares/auth.ts:65-67 | `String` throws on an object with an own `toString` key and on an array holding one, and renders other objects as `[object Object]` |
| `Auth.EmptyArraySubIsMissing` | backend/src/middlewares/auth.ts:65 | a `sub` claim that is an empty array renders as the empty string, so it counts as missing |
| `Auth.MatchBearerIsRegex` | backend/src/middlewares/auth.ts:25-26 | the greedy scan fails exactly when `^Bearer\s+(.+)$`/i has no match; otherwise it yields the capture of the regex's greedy split |
| `Auth.GetBearerToken` | backend/src/middlewares/auth.ts:22-27 | a token is a non-empty suffix of the header, after a case-insensitive `Bearer` and a whitespace character; no header gives none |
| `Auth.BearerExamples` | backend/src/middlewares/auth.ts:22-27 | `Bearer abc` gives abc; `Bearerabc` and a missing header give none |
| `Auth.Issuer` | backend/src/middlewares/auth.ts:36 | the issuer is `https://cognito-idp.`, the region, `.amazonaws.com/`, then the pool id |
| `Auth.Audience` | backend/src/middlewares/auth.ts:57 | the audience is the client id, or none when it is empty |
| `Auth.JwksLookup` | backend/src/middlewares/auth.ts:31-39 | a cached key set is returned as is; otherwise an empty pool id or region fails with the configuration message, a region that breaks the URL's host fails with "Invalid URL", else the key set at the issuer's jwks.json |
| `Auth.JwksCache.constructor` | backend/src/middlewares/auth.ts:29 | the cache starts empty |
| `Auth.JwksCache.GetJwks` | backend/src/middlewares/auth.ts:31-39 | returns the lookup and stores the key set on first success; a failure leaves the cache as it was |
| `Auth.InvalidRegionDenied` | backend/src/middlewares/auth.ts:37-79 | with a region that breaks the URL's host, a request with a token gets 401 "Invalid URL" whatever the verifier says, and the cache stays empty |
| `Auth.SpacedRegionIsInvalid` | backend/src/middlewares/auth.ts:36-37 | the region `eu west-1` breaks the host; `eu-west-1` does not |
| `Auth.BarePercentRegionIsInvalid` | backend/src/middlewares/auth.ts:36-37 | a `%` that starts no two-hex-digit escape (`eu%`, `eu%4`, `eu%west`) breaks the host; `eu%41` is not judged invalid |
| `Auth.CacheIsSticky` | backend/src/middlewares/auth.ts:32 | once cached, the key set is returned and kept whatever the configuration |
| `Auth.Authenticate` | backend/src/middlewares/auth.ts:41-81 | disabled mode admits the local user; a missing token gives 401; every denial is 401, and a failed key-set lookup is answered with its own message; an admitted user has a non-empty sub |
| `Auth.NoTokenNoVerification` | backend/src/middlewares/auth.ts:47-50 | without a well-formed bearer header the verifier is never consulted |
| `Auth.VerifiedTokenOutcome` | backend/src/middlewares/auth.ts:55-76 | a verified token whose claims `String` throws on gets 401 with the TypeError's message; otherwise it is admitted exactly when its sub is non-empty, as the user built from its claims, and else gets 401 `Invalid token (missing sub)` |
| `Auth.RejectedTokenOutcome` | backend/src/middlewares/auth.ts:77-80 | a verifier failure gives 401 with its message, or `Invalid token` for a non-Error |
| `Auth.VerifyCognitoJwt` | backend/src/middlewares/auth.ts:41-81 | the response is the decision above, and the key set is cached only when a token was looked at |
| `Auth.GroupsOf` | backend/src/middlewares/auth.ts:86 | the user's groups array, or empty when there is no user or no groups |
| `Auth.AnyAllowed` | backend/src/middlewares/auth.ts:87 | holds exactly when some allowed name equals, as a string, an element of groups |
| `Auth.RequireGroups` | backend/src/middlewares/auth.ts:83-93 | continue exactly when auth is disabled or some allowed name is a group of the user (absent groups count as empty); otherwise 403 Forbidden |
| `Auth.EmptyAllowedForbids` | backend/src/middlewares/auth.ts:87-90 | an empty allowed list forbids everybody when auth is on |
| `Auth.NoGroupsForbidden` | backend/src/middlewares/auth.ts:86-90 | a user without groups is forbidden when auth is on |
| `Auth.DisabledModeAdmitsAll` | backend/src/middlewares/auth.ts:42-45 | in disabled mode every request gets the local user, and the group gate (line 85) lets it through |
| `UsersController.GetMe` | backend/src/modules/users/users.controller.ts:4-18 | no subject gives 401 Unauthorized; else 200 with userId = sub, email and username passed through, and groups defaulting to empty |
| `UsersController.GetMeLocalUser` | backend/src/modules/users/users.controller.ts:9-16 | the disabled-mode user is answered as local-user with username local and no groups |
| `ClientLog.LevelNamed` | frontend/src/services/logging/logger.ts:31 | a name is found exactly when it is one of the four level keys |
| `ClientLog.GetLogLevel` | frontend/src/services/logging/logger.ts:24-37 | no value gives info; a level name in any case gives that level; anything else gives info |
| `ClientLog.GetLogLevelAnyCase` | frontend/src/services/logging/logger.ts:30-34 | any spelling whose lower-case form is a level's name selects that level |
| `ClientLog.Logger.constructor` | frontend/src/services/logging/logger.ts:43-46 | a logger keeps its name and level |
| `ClientLog.Logger.FormatMessage` | frontend/src/services/logging/logger.ts:48-50 | the line is `[name] [LEVEL] message` with the level upper-cased |
| `ClientLog.FormatTags` | frontend/src/services/logging/logger.ts:48-50 | the tags are `[DEBUG]`, `[INFO]`, `[WARN]` and `[ERROR]` |
| `ClientLog.Logger.Log` | frontend/src/services/logging/logger.ts:52-60 | a line is written exactly when the level ranks at least the logger's level, with the level's console method and the formatted text |
| `ClientLog.Logger.Warn` | frontend/src/services/logging/logger.ts:78-80 | warn writes on console.log with an INFO tag, and only when the logger's level is debug or info |
| `ClientLog.Logger.Debug` | frontend/src/services/logging/logger.ts:70-72 | debug writes on console.log with a DEBUG tag, and only when the logger's level is debug |
| `ClientLog.Logger.Info` | frontend/src/services/logging/logger.ts:74-76 | info writes on console.log with an INFO tag, and only when the logger's level is debug or info |
| `ClientLog.Logger.Error` | frontend/src/services/logging/logger.ts:82-84 | error is always written, on console.error, with an ERROR tag |
| `ClientLog.LoggerRegistry.constructor` | frontend/src/services/logging/logger.ts:87-92 | the level comes from the configuration, and the map holds only `app`, mapped to the app logger |
| `ClientLog.LoggerRegistry.GetLogger` | frontend/src/services/logging/logger.ts:94-103 | no name or an empty name gives the app logger; a known name gives its logger; a new name registers a fresh logger with the global level |
| `ClientLog.SameInstance` | frontend/src/services/logging/logger.ts:94-103 | two calls with one name return the same instance, with the global level, and `app` returns the app logger |
| `SessionsSlice.WithoutSession` | frontend/src/store/slices/sessionsSlice.ts:143-145 | the filtered list is no longer than the original and holds none of the removed id |
| `SessionsSlice.WithoutSessionCounts` | frontend/src/store/slices/sessionsSlice.ts:143-145 | sessions with another id keep their multiplicity; sessions with the removed id are gone |
| `SessionsSlice.WithoutSessionAppend` | frontend/src/store/slices/sessionsSlice.ts:143-145 | the filter distributes over concatenation, so the kept sessions keep their order |
| `SessionsSlice.WithoutSessionAbsent` | frontend/src/store/slices/sessionsSlice.ts:143-145 | removing an id nobody has changes nothing |
| `SessionsSlice.WithoutSessionIdempotent` | frontend/src/store/slices/sessionsSlice.ts:142-146 | a repeated force-stop of one session changes nothing more |
| `SessionsSlice.SessionsState.constructor` | frontend/src/store/slices/sessionsSlice.ts:14-20 | no active session, empty history and allSessions, not loading, no error |
| `SessionsSlice.SessionsState.ClearSessionError` | frontend/src/store/slices/sessionsSlice.ts:98-100 | only the error is cleared |
| `SessionsSlice.SessionsState.FetchActiveSessionPending` | frontend/src/store/slices/sessionsSlice.ts:104-106 | only loading becomes true |
| `SessionsSlice.SessionsState.FetchActiveSessionFulfilled` | frontend/src/store/slices/sessionsSlice.ts:107-110 | loading false and the active session is the payload (possibly none); nothing else changes |
| `SessionsSlice.SessionsState.FetchActiveSessionRejected` | frontend/src/store/slices/sessionsSlice.ts:111-114 | loading false and the error is the payload; nothing else changes |
| `SessionsSlice.SessionsState.FetchSessionHistoryFulfilled` | frontend/src/store/slices/sessionsSlice.ts:115-117 | only the history is replaced |
| `SessionsSlice.SessionsState.StartChargingFulfilled` | frontend/src/store/slices/sessionsSlice.ts:118-121 | the active session is the payload and the error is cleared; nothing else changes |
| `SessionsSlice.SessionsState.StartChargingRejected` | frontend/src/store/slices/sessionsSlice.ts:122-124 | only the error is set |
| `SessionsSlice.SessionsState.StopChargingFulfilled` | frontend/src/store/slices/sessionsSlice.ts:125-127 | only the active session is cleared |
| `SessionsSlice.SessionsState.StopChargingRejected` | frontend/src/store/slices/sessionsSlice.ts:128-130 | only the error is set |
| `SessionsSlice.SessionsState.FetchAllSessionsPending` | frontend/src/store/slices/sessionsSlice.ts:131-133 | only loading becomes true |
| `SessionsSlice.SessionsState.FetchAllSessionsFulfilled` | frontend/src/store/slices/sessionsSlice.ts:134-137 | loading false and allSessions is the payload; nothing else changes |
| `SessionsSlice.SessionsState.FetchAllSessionsRejected` | frontend/src/store/slices/sessionsSlice.ts:138-141 | loading false and the error is the payload; nothing else changes |
| `SessionsSlice.SessionsState.ForceStopSessionFulfilled` | frontend/src/store/slices/sessionsSlice.ts:142-146 | every session with the payload's id leaves allSessions, the rest stay in order; the active session is untouched |
| `SessionsSlice.SessionsState.ForceStopSessionRejected` | frontend/src/store/slices/sessionsSlice.ts:147-149 | only the error is set |
| `SessionsSlice.StartStopScenario` | frontend/src/store/slices/sessionsSlice.ts:104-127 | a failed fetch, then a successful start, then a stop leave no active session, no error, not loading, and the history kept |
| `StationsSlice.StationsState.constructor` | frontend/src/store/slices/stationsSlice.ts:13-18 | empty list, no current station, not loading, no error |
| `StationsSlice.StationsState.ClearCurrentStation` | frontend/src/store/slices/stationsSlice.ts:48-50 | only the current station is cleared |
| `StationsSlice.StationsState.FetchStationsPending` | frontend/src/store/slices/stationsSlice.ts:54-57 | loading true and error cleared; nothing else changes |
| `StationsSlice.StationsState.FetchStationsFulfilled` | frontend/src/store/slices/stationsSlice.ts:58-61 | loading false and the list is the payload; the current station is kept |
| `StationsSlice.StationsState.FetchStationsRejected` | frontend/src/store/slices/stationsSlice.ts:62-65 | loading false and the error is the payload; list and current station are kept |
| `StationsSlice.StationsState.FetchStationDetailPending` | frontend/src/store/slices/stationsSlice.ts:66-69 | loading true and error cleared; nothing else changes |
| `StationsSlice.StationsState.FetchStationDetailFulfilled` | frontend/src/store/slices/stationsSlice.ts:70-73 | loading false and the current station is the payload |
| `StationsSlice.StationsState.FetchStationDetailRejected` | frontend/src/store/slices/stationsSlice.ts:74-77 | loading false and the error is the payload; list and current station are kept |
| `StationsSlice.ListThenFailedDetail` | frontend/src/store/slices/stationsSlice.ts:54-77 | a failed detail fetch keeps the loaded list, and the next pending clears its error |
| `HealthSlice.HealthState.constructor` | frontend/src/store/slices/healthSlice.ts:13-18 | every field empty and not loading |
| `HealthSlice.HealthState.ClearHealth` | frontend/src/store/slices/healthSlice.ts:37-41 | response, error and lastChecked are cleared; loading is left as it is |
| `HealthSlice.HealthState.CheckHealthPending` | frontend/src/store/slices/healthSlice.ts:45-48 | loading true and error cleared; the previous response is kept |
| `HealthSlice.HealthState.CheckHealthFulfilled` | frontend/src/store/slices/healthSlice.ts:49-53 | response is the payload, loading false, lastChecked is the time passed in; an earlier error stays |
| `HealthSlice.HealthState.CheckHealthRejected` | frontend/src/store/slices/healthSlice.ts:54-58 | the error is the payload, loading false, lastChecked is the time passed in; the response is not cleared |
| `HealthSlice.SuccessThenFailure` | frontend/src/store/slices/healthSlice.ts:45-58 | after a success and then a failure, the old response and the new error are both shown, stamped with the failure's time |
| `TechSupportSlice.TechSupportState.constructor` | frontend/src/store/slices/techSupportSlice.ts:13-18 | no errors, no stats, not loading, no error |
| `TechSupportSlice.TechSupportState.Dispatch` | frontend/src/store/slices/techSupportSlice.ts:49-63 | fetchErrors pending sets only loading (the error stays); fulfilled sets loading false and the errors; rejected sets loading false and the error; fetchStats fulfilled sets only stats; its pending and rejected change nothing |
| `TechSupportSlice.Independence` | frontend/src/store/slices/techSupportSlice.ts:49-63 | the stats actions never touch the error-log fields, and the error-log actions never touch stats |
| `AdminSlice.AdminState.constructor` | frontend/src/store/slices/adminSlice.ts:12-16 | no users, not loading, no error |
| `AdminSlice.AdminState.FetchUsersPending` | frontend/src/store/slices/adminSlice.ts:36-39 | loading true and error cleared; the users are kept |
| `AdminSlice.AdminState.FetchUsersFulfilled` | frontend/src/store/slices/adminSlice.ts:40-43 | loading false and the users are the payload |
| `AdminSlice.AdminState.FetchUsersRejected` | frontend/src/store/slices/adminSlice.ts:44-47 | loading false and the error is the payload; the users are kept |
| `AuthSlice.LoggedInUser` | frontend/src/store/slices/authSlice.ts:67-71 | the stored user has the answer's id and role, its email or the empty string, and no token, name or flag |
| `AuthSlice.AuthState.constructor` | frontend/src/store/slices/authSlice.ts:12-18 | the saved user, not loading, no error |
| `AuthSlice.AuthState.Logout` | frontend/src/store/slices/authSlice.ts:49-54 | user and error are cleared; loading is kept |
| `AuthSlice.AuthState.ClearError` | frontend/src/store/slices/authSlice.ts:55-57 | only the error is cleared |
| `AuthSlice.AuthState.LoginPending` | frontend/src/store/slices/authSlice.ts:61-64 | loading true and error cleared; the user is kept |
| `AuthSlice.AuthState.LoginFulfilled` | frontend/src/store/slices/authSlice.ts:65-73 | loading false and the user is the one built from the answer |
| `AuthSlice.AuthState.LoginRejected` | frontend/src/store/slices/authSlice.ts:74-77 | loading false and the error is the payload; the user is kept |
| `AuthSlice.AuthState.RegisterPending` | frontend/src/store/slices/authSlice.ts:78-81 | loading true and error cleared; the user is kept |
| `AuthSlice.AuthState.RegisterFulfilled` | frontend/src/store/slices/authSlice.ts:82-84 | only loading becomes false |
| `AuthSlice.AuthState.RegisterRejected` | frontend/src/store/slices/authSlice.ts:85-88 | loading false and the error is the payload; the user is kept |
| `AuthSlice.LoginThenRegister` | frontend/src/store/slices/authSlice.ts:61-84 | after a login and a registration, the logged-in user stays signed in without a token |
| `AuthContext.RoleFlags` | frontend/src/auth/AuthContext.tsx:102-105 | at most one role flag holds; each implies being signed in; an unknown role sets none |
| `AuthContext.StoredToken` | frontend/src/auth/AuthContext.tsx:49 | the stored token is the access token, else the id token, else empty |
| `AuthContext.LoginUser` | frontend/src/auth/AuthContext.tsx:50-56 | the user has the answer's id and role, its email or else the typed email, and the answer's tokens |
| `AuthContext.StoredTokenChoice` | frontend/src/auth/AuthContext.tsx:49-56 | an empty stored token means no non-empty token was given; with an access token the stored token is the user's |
| `AuthContext.AuthProvider.constructor` | frontend/src/auth/AuthContext.tsx:25-41 | the saved user, not loading, no error; the saved token is kept only when a user was saved, since the effect removes it otherwise |
| `AuthContext.AuthProvider.Login` | frontend/src/auth/AuthContext.tsx:43-66 | success resolves with the built user, signs it in and stores the token; failure rejects with the message, sets the error and keeps the user; loading ends false |
| `AuthContext.AuthProvider.Register` | frontend/src/auth/AuthContext.tsx:68-84 | resolves with the answer or rejects with the message; the user is never changed; loading ends false |
| `AuthContext.AuthProvider.Logout` | frontend/src/auth/AuthContext.tsx:86-91 | the user and the stored token are removed |
| `AuthContext.AdminSignInOut` | frontend/src/auth/AuthContext.tsx:43-105 | signing in as ADMIN sets exactly the admin flag; signing out clears every flag |
| `ProtectedRoute.EncodeURIComponent` | frontend/src/auth/ProtectedRoute.tsx:15 | the encoding holds only unreserved characters, `%` and upper-case hex digits, and is no shorter than the input |
| `ProtectedRoute.EncodeUnreserved` | frontend/src/auth/ProtectedRoute.tsx:15 | a string of unreserved characters is its own encoding |
| `ProtectedRoute.DecodeEncode` | frontend/src/auth/ProtectedRoute.tsx:15 | decoding the encoding gives back the original string, so the `redirect` parameter decodes to the requested path |
| `ProtectedRoute.Guard` | frontend/src/auth/ProtectedRoute.tsx:10-23 | not signed in: redirect to `/login?redirect=` and the encoded path, whatever the roles; signed in with a role outside the given roles: `/error/forbidden`; render exactly when signed in and roles are absent or contain the role |
| `ProtectedRoute.EmptyRolesForbid` | frontend/src/auth/ProtectedRoute.tsx:18-20 | an empty roles list forbids every signed-in user |
| `ProtectedRoute.LoginRedirectCarriesPath` | frontend/src/auth/ProtectedRoute.tsx:14-16 | the login redirect starts with `/login?redirect=` and its parameter decodes to the requested path |
| `ProtectedRoute.GuardExamples` | frontend/src/auth/ProtectedRoute.tsx:10-23 | an admin passes an admin-only route; a plain user is forbidden; `/a b` is redirected as `%2Fa%20b`; `é` encodes as `%C3%A9` |
| `Navbar.HomeActiveOnlyAtHome` | frontend/src/components/Navbar.tsx:25-26 | the `/` link is active only at `/` |
| `Navbar.ActiveIsPrefix` | frontend/src/components/Navbar.tsx:25-26 | any other link is active exactly on the paths that start with it |
| `Navbar.NoSegmentBoundary` | frontend/src/components/Navbar.tsx:25-26 | `/stations` is active at `/stationsX`; `/` is not active at `/stations` |
| `Navbar.LinkClass` | frontend/src/components/Navbar.tsx:28-29 | `nav-link-active` exactly when active, `nav-link` exactly when not |
| `Navbar.RoleColors` | frontend/src/components/Navbar.tsx:33 | purple exactly for admin; blue exactly for tech support that is not admin; green otherwise |
| `Navbar.BadgeForRole` | frontend/src/components/Navbar.tsx:33 | the badge follows the role string: ADMIN purple, TECH_SUPPORT blue, any other role green |

## Left out

- Backend transport: Express routing, CORS, morgan, body parsing and `express-async-errors`. A handler's input is the authenticated user, the parsed body fields or the path parameter. Header lookup (`req.header`) is one optional string, since Express matches header names case-insensitively.
- `env.port`: its `Number(...)` parsing is floating-point and is not modelled. The other fields are strings taken from a map of environment variables.
- JWT signature, issuer, audience and expiry checks (`jose`), and the network fetch of the key set. They are a function parameter that yields claims or a thrown message. `createRemoteJWKSet` is modelled as recording its URL.
- Auth.JwksLookup: `new URL(...)` is modelled as failing with "Invalid URL" only for a region that holds a character no host may contain and none of `/`, `\`, `?`, `#` or `@`. A `%` that does not start a two-hex-digit escape also counts as such a character. Some regions are taken as giving a valid URL although `new URL` throws for them: a region with one of those five delimiters, a `%` escape that decodes to a forbidden or invalid character (`%20`, `%25`), an ASCII `xn--` label whose Punycode is invalid, or a non-ASCII label that IDNA processing rejects.
- `Auth.JsString`: numbers are kept as the text `String(n)` would produce, so `String` of a number claim is taken as given rather than computed. Of an object only whether it has an own `toString` key is kept; that key alone decides whether `String` throws on an object parsed from JSON.
- The backend logger's `fmt`: the JSON text and the `meta` argument are not modelled. An emitted record carries the time stamp, level, scope and message.
- The frontend logger's own console messages inside `getLogLevel`, and the extra `...others` arguments.
- Common.Lower: letters are lower-cased in ASCII only. JavaScript's `toLowerCase` also maps other letters, but none of them lowers to a string that completes one of the ASCII words compared against. Only U+212A and U+0130 lower to strings that start with an ASCII letter: U+212A becomes `k`, which no such word contains, and U+0130 becomes `i` followed by U+0307, a character no such word contains.
- Browser storage: the `localStorage` writes and reads are out of the model. Exceptions are the saved user given to the constructors and the `accessToken` entry written by `AuthProvider.Login`. `JSON.parse` of the saved user is out of the model.
- The mirror of the user into `localStorage` by `AuthProvider`'s `useEffect` is not modelled. Its removal of `accessToken` when there is no user is: on the first render (`AuthContext.AuthProvider.constructor`) and on logout.
- Async thunks, their network calls and `getErrorMessage` are out of the model. A reducer receives the payload or the rejection message directly.
- `fetchSessionHistory` pending and rejected have no reducer case and so leave the state unchanged. The same holds for `startCharging` pending, `stopCharging` pending and `forceStopSession` pending; they have no method.
- Numeric frontend fields (power, tariff, charge, cost, coordinates, response time) and the health `checks` record are not modelled, because no modelled decision reads them.
- ProtectedRoute.EncodeURIComponent: model strings hold Unicode scalar values, so the `URIError` that `encodeURIComponent` throws for a lone surrogate cannot be expressed. The decoder accepts only upper-case hex escapes, the only ones the encoder writes.
- React rendering, the Navbar's mobile menu state, and every page and component other than the three Navbar helpers and `ProtectedRoute`.
- `backend/dist`: compiled copies of the backend sources, not modelled.
