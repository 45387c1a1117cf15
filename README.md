# Blood Script Companion client: view state, moderator gate and CSRF header rule

This project models three small pieces of sequential decision logic in the browser
client of a Vampire: The Masquerade V5 session tracker.

- **The top-level view** (`app.dfy`, module `App`) covers `src/App.tsx`. It has three
  state cells: `session`, `world` and `error`. It also tracks the realtime channel and the
  push listeners attached to it. `load` runs once at mount and makes two awaited fetches
  (`fetchMe`, then `fetchWorld`). Three push handlers react to `world`, `xp_applied` and
  `error`. Panels use two callbacks, `onWorldUpdate` and `onLogout`. An ordered render rule
  picks one of Login, Error, Loading or Dashboard.
- **The moderator gate** (`dashboard.dfy`, module `WorldDashboard`) covers
  `src/components/WorldDashboard.tsx`. Its effect `checkModerator` sets `isModerator` and
  `loadingAdmin`. It checks client and session first, then the st/admin role, then makes an
  asynchronous roster lookup. A per-run `mounted` flag, cleared by the effect's cleanup,
  throws away late results.
- **The request layer** (`api.dfy`, module `Api`) covers `src/api.ts`. A module-level
  anti-forgery token is filled lazily by the identity call `ensureSession`. `call` picks the
  method and builds the headers. It adds `x-csrf-token` only to requests that are not GETs.

Every network and socket call is an event or a parameter that carries its outcome.
Async completions are modelled as sequences of events. Each component has two parts:

- a pure transition function (`Step`, `GateStep`) with a trace function (`Run`,
  `GateRun`);
- a class whose methods update the fields one by one, as the source's handlers do. Each
  method is proved to agree with the transition function.

The lemmas state the properties over the transition functions. Most are about every
state, or every event sequence. `LoadSucceeds`, `CachedWorldDroppedOnFailure` and
`StaleWorldAfterErrorPush` each follow one fixed trace from mount.
`Step` is total: if the outcome of a call that is not in flight arrives, the state stays
the same.

JavaScript truthiness is written out where the source relies on it:

- the error cell and the token are falsy when null or `""`;
- `Boolean(result)` of the lookup follows JavaScript's rules;
- `payload?.world` truthy is `Some`.

The world data shapes (`types.dfy`) come from `src/types.ts`. No backend behaviour is
assumed about them.

Where the code and the design description disagree, the model follows the code:

- A failure of either fetch in `load` clears the session, so the next screen is Login. It
  is never an Error screen, and any cached world is dropped (`LoadFailsAtWorld`,
  `CachedWorldDroppedOnFailure`). As a
  result, no reachable state shows the Error screen (`ErrorScreenUnreachable`).
- The catch branch of `load` does not close the channel opened after `fetchMe`. Only its
  listeners are detached (`LoadFailsAtWorld`).
- A `fetchWorld` answer that arrives after an `error` push still writes the world and
  clears the error message. The screen stays Login (`StaleWorldAfterErrorPush`).
- A `world` push is applied only when its `world` field is truthy. It is not
  unconditional.

## Model

| member | source | states |
|---|---|---|
| App.SelectScreen | src/App.tsx:69-75 | Gives each screen's condition in closed form. Login iff no session, whatever world and error hold. Error iff session, no world and a truthy error; the screen shows that message. Loading iff session, no world and no truthy error. Dashboard iff session and world, whatever the error. |
| App.Resubscribe | src/App.tsx:37-67 | The `[session]` effect. When the session changed, the listeners become all three if a session is held and none otherwise, and a new session connects the channel. When it did not change, nothing moves. The cells are never touched, and the cleanup never disconnects. |
| App.LoadFailed | src/App.tsx:26-30 | The catch branch of `load`: session and world null, the message stored, load settled, screen Login. The channel is left as it was; the listeners are detached if a session was held. |
| App.Step | src/App.tsx:17-85 | The meaning of every event. The load phase only moves forward. A session is set only by the answer of `fetchMe` while it is awaited. The error cell changes only at a load outcome or an `error` push. The listeners change only when the session does. |
| App.InitReachable | src/App.tsx:12-14 | The mount state: all cells null, no channel, `load` awaiting `fetchMe`. It satisfies the reachability invariant. |
| App.StepPreservesReachable | src/App.tsx:17-85 | Every event keeps the invariant: a held session has a null error and a connected channel; listeners are attached exactly while a session is held; before `fetchMe` answers there is neither a session nor an error. |
| App.RunPreservesReachable | src/App.tsx:17-85 | The invariant holds after any event sequence. |
| App.ErrorScreenUnreachable | src/App.tsx:25-71 | `load` runs once. In every reachable state a non-null session has a null error, so the Error screen is never chosen. |
| App.ListenersFollowSession | src/App.tsx:37-67 | In every reachable state, the `world`, `xp_applied` and `error` listeners are attached iff a session is held, and a held session has a connected channel. |
| App.TeardownIsFinal | src/App.tsx:17-85 | Once `fetchMe` has answered and the session is null, no event sequence brings a session back. The screen stays Login. |
| App.LoadSucceeds | src/App.tsx:17-25 | After `fetchMe` and before `fetchWorld`: session is `me`, listeners are attached, and the screen is Loading. After both: session `me`, world the fetched one, error null, Dashboard. |
| App.LoadFailsAtMe | src/App.tsx:26-30 | In every reachable state awaiting `fetchMe`, a failure clears session and world, whatever world was held, and stores the message. The screen is Login and the channel is unchanged; from mount none is open. |
| App.LoadFailsAtWorld | src/App.tsx:22-30 | In every reachable state awaiting `fetchWorld`, a failure clears session and world, whatever world was held, and stores the message. The screen is Login, not Error. The listeners are detached but the channel stays as it was. |
| App.CachedWorldDroppedOnFailure | src/App.tsx:20-45 | A `world` push between the two fetches shows the dashboard. A failing `fetchWorld` then drops that world and shows Login, with the channel still connected. |
| App.WorldPushReplaces | src/App.tsx:43-45 | A delivered `world` push with a truthy `world` field replaces the world wholesale. Any other payload changes nothing. Session, error, phase and channel are never touched. |
| App.ErrorPushTearsDown | src/App.tsx:53-58 | A delivered `error` push sets the error to `payload.error`, or "Realtime error" when it is absent. It also clears session and world, disconnects and detaches, so the screen is Login. |
| App.WorldUpdateReplacesWorld | src/App.tsx:79 | `onWorldUpdate` replaces the world and nothing else. |
| App.LogoutClears | src/App.tsx:80-85 | A completed logout disconnects and clears session and world. The error stays unchanged and the screen is Login. A logout whose request rejected changes nothing. |
| App.XpAppliedChangesNothing | src/App.tsx:47-51 | The `xp_applied` push leaves the state unchanged. |
| App.StaleWorldAfterErrorPush | src/App.tsx:19-58 | A `fetchWorld` answer arriving after an `error` push still writes the world and clears the error. The session stays null and the screen stays Login. |
| App.AppComponent.constructor | src/App.tsx:12-35 | At mount all cells are null, no channel exists, `load` awaits `fetchMe`, and the screen is Login. |
| App.AppComponent.SyncRealtime | src/App.tsx:37-67 | The `[session]` effect. When the session changed, the cleanup detaches all three listeners. A non-null session then connects and attaches them. |
| App.AppComponent.FetchMeSucceeded | src/App.tsx:19-20 | Sets the session to `me` and starts the realtime effect, as `Step` says. |
| App.AppComponent.FetchWorldSucceeded | src/App.tsx:22-25 | Sets the world and clears the error, as `Step` says. |
| App.AppComponent.LoadThrew | src/App.tsx:26-30 | The catch branch: clears session and world and stores the message. Agrees with `Step` for a failure of either fetch. |
| App.AppComponent.OnWorldPush | src/App.tsx:43-45 | The `world` handler, as `Step` says. |
| App.AppComponent.OnErrorPush | src/App.tsx:53-58 | The `error` handler, as `Step` says. |
| App.AppComponent.OnWorldUpdate | src/App.tsx:79 | `onWorldUpdate`, as `Step` says. |
| App.AppComponent.OnLogout | src/App.tsx:80-85 | `onLogout`, as `Step` says. |
| WorldDashboard.IsStOrAdminAsWritten | src/components/WorldDashboard.tsx:16-17 | The role test as written fails exactly when the session is null. |
| WorldDashboard.GateStepAsWritten | src/components/WorldDashboard.tsx:16-44 | Render then effect as written: an effect run fails exactly when the session is null, because the render throws at the role test before the effect is scheduled. |
| WorldDashboard.RoleTestThrowsWithoutSession | src/components/WorldDashboard.tsx:16-29 | With a null session the as-written render throws, so the "no session" branch at lines 23-28 never runs. The corrected gate ends loading there with "not a moderator". |
| WorldDashboard.AsWrittenAgreesWithSession | src/components/WorldDashboard.tsx:16-57 | Whenever the session is present, the as-written gate and the corrected gate give the same state. |
| WorldDashboard.Truthy | src/components/WorldDashboard.tsx:47 | `Boolean(result)` is false exactly for undefined, null, false, 0 and the empty string. |
| WorldDashboard.GateStep | src/components/WorldDashboard.tsx:19-65 | The meaning of every gate event. The tab is never written, the run counter never decreases, and `loadingAdmin` never becomes true. The two cells change only in an effect run or at the outcome of the live run's outstanding lookup. |
| WorldDashboard.IsStOrAdmin | src/components/WorldDashboard.tsx:16-17 | True exactly for a session whose role is "st" or "admin". Agrees with the as-written test whenever a session exists. |
| WorldDashboard.EffectPaths | src/components/WorldDashboard.tsx:19-44 | A run mounts itself. Missing client or session gives not moderator, not loading and no lookup, checked before the role. St/admin gives moderator, not loading and no lookup. Only the remaining case starts a lookup, and it leaves both cells unchanged. |
| WorldDashboard.LiveLookupDecides | src/components/WorldDashboard.tsx:39-57 | For the mounted run, a resolved lookup sets `isModerator` to `Boolean(result)` and a thrown one sets it false. Either way `loadingAdmin` becomes false. |
| WorldDashboard.StaleLookupIgnored | src/components/WorldDashboard.tsx:46-56 | The outcome of a lookup whose run is unmounted or superseded changes neither `isModerator` nor `loadingAdmin`. |
| WorldDashboard.FrozenAfterCleanup | src/components/WorldDashboard.tsx:19-65 | After cleanup clears `mounted`, no sequence of late lookup outcomes changes `isModerator` or `loadingAdmin`. |
| WorldDashboard.LoadingNeverReturns | src/components/WorldDashboard.tsx:12-65 | No event sequence sets `loadingAdmin` back to true. |
| WorldDashboard.ModeratorCheck.constructor | src/components/WorldDashboard.tsx:12-14 | The initial state is not moderator, admin loading, world tab. |
| WorldDashboard.ModeratorCheck.RunEffect | src/components/WorldDashboard.tsx:19-60 | One effect run, as `GateStep` says. It returns a lookup exactly when one is needed, carrying the session's engine id and user id. |
| WorldDashboard.ModeratorCheck.OnLookupResolved | src/components/WorldDashboard.tsx:40-57 | A lookup result, applied only while its run is mounted, as `GateStep` says. |
| WorldDashboard.ModeratorCheck.OnLookupRejected | src/components/WorldDashboard.tsx:49-57 | A thrown lookup, applied only while its run is mounted, as `GateStep` says. |
| WorldDashboard.ModeratorCheck.Cleanup | src/components/WorldDashboard.tsx:62-64 | Clears the current run's `mounted`. |
| Api.HeadersFor | src/api.ts:26-31 | `Content-Type: application/json` is always set. `x-csrf-token` is present iff the method is not "GET" and the token is truthy, and then it holds the token. No other header, including none of the caller's, is sent. |
| Api.MethodOf | src/api.ts:25 | The method is `init.method` when given, and "GET" when there is no `init` or no method. |
| Api.IdentityRequest | src/api.ts:17 | The identity request is a credentialed GET of `/companion/me` with no headers and no body. |
| Api.Outgoing | src/api.ts:33-38 | The request goes to the base URL plus the path, with credentials, the chosen method and the caller's body. It carries `x-csrf-token` iff the method is not "GET" and the token is truthy, and no header beyond the content type and the token. |
| Api.IdentityResult | src/api.ts:16-21 | `ensureSession` succeeds exactly on an ok response and then returns the response body. A non-ok response throws "Not authenticated". A rejected fetch throws its own message. |
| Api.TokenAfter | src/api.ts:18-20 | After `ensureSession`, the token is the response's `csrfToken` (null when absent) if the call succeeded, and unchanged if it failed. |
| Api.CallResult | src/api.ts:33-41 | `call` returns the response body exactly on an ok response. A non-ok response throws "Request failed: " followed by the path. A rejected fetch throws its own message. |
| Api.Client.constructor | src/api.ts:14 | The token starts null. |
| Api.Client.EnsureSession | src/api.ts:16-22 | Issues one identity request. On success the token becomes the response's `csrfToken`, or null. On failure the token is unchanged. |
| Api.Client.Call | src/api.ts:24-42 | A GET, or a request with a cached truthy token, sends one request and no identity call, and leaves the token unchanged. Otherwise `ensureSession` runs first. If it fails, its error is thrown and nothing else is sent. If it succeeds, the request carries the new token when that token is truthy. |
| Api.GetNeverCarriesToken | src/api.ts:25-31 | A GET carries only the content type, never `x-csrf-token`, whatever is cached. |

## Findings

| source | as written | input that shows it | evidently intended | confidence | as-written member | corrected member |
|---|---|---|---|---|---|---|
| src/components/WorldDashboard.tsx:16-17 | `isStOrAdmin` reads `session.role` during render, before the effect's null check at line 23 | `useSession()` yields a null session: the render throws, and the "no session" branch at 23-28 never runs | read the role through the optional session, so a missing session ends the check as not moderator and not loading | medium, not executed; `useSession` is not part of this model, so whether it can yield null is not known | WorldDashboard.RoleTestThrowsWithoutSession | WorldDashboard.IsStOrAdmin |

`GateStep`, and with it `EffectPaths`, uses the corrected test.

## Left out

- Fetch and socket calls: the network, the socket.io client and the backend are replaced
  by outcome events and parameters. `fetchMe` and `fetchWorld` are not in the shown file
  `src/api.ts`. Their results enter only as `MeFetched`/`WorldFetched` and their failures as
  `MeFailed`/`WorldFailed`.
- `connectRealtime()` is called without the token that `src/realtime.ts:5` requires. The
  model treats the call as opening a connected channel.
- `disconnectRealtime` is imported from `src/realtime.ts`, which does not export it. The
  model treats it as closing the channel. If the import resolved to nothing, the call would
  throw, and in `onLogout` the two clears after it would be skipped. That case is not
  modelled.
- Rendering itself is not modelled. `Login` is rendered without its required `onLogin`
  prop, and `WorldDashboard` is given props that the shown component does not declare.
  Only which screen is chosen is modelled.
- React's effect keyed on `session` compares by reference. The model compares by value.
  These agree here, because the session only ever goes from null to one fetched value and
  back to null.
- React batching is modelled as each handler's updates taking effect together. The
  session effect runs right after the handler that changed the session.
- `Step`/`GateStep` ignore outcome events for calls that are not in flight. Such events
  cannot occur in the source.
- `Step` accepts the panel callbacks `onWorldUpdate` and `onLogout` in any phase, even
  before `fetchMe` answers, though the source passes them only to the rendered dashboard.
  This over-approximates what can happen: a late `onWorldUpdate` may set the world while
  no session is held, and `Reachable` does not exclude that.
- Api.Client.Call: each call is one atomic step. The source suspends at
  `await ensureSession()` and reads the module-level token again afterwards. So two
  non-GET calls started together can both send the identity request, and each then
  attaches whichever token the last `ensureSession` wrote. That interleaving is not
  modelled.
- The `console.log` of the `xp_applied` handler is not modelled; the handler changes no
  state.
- `...init` fields other than the method, the headers and the body (mode, cache, signal
  and the like) are not modelled. The model does capture that `credentials` and
  `headers` in `init` are overridden.
- A payload whose `world` field is truthy but is not a world state, and a non-string
  `error` field, are not modelled: the source casts them without checks.
- NaN and fractional numbers: `heat`, clock progress and segments, and lookup results are
  integers here.
- The rest of `src/components/WorldDashboard.tsx`: the file stops at line 66, and its hooks
  and services (lines 2-4) are not part of this model. The roster lookup's backend contract
  is only its truthy or falsy result.
- JSON parsing failures of `res.json()` are not modelled.
- Presentational components, the login redirect, owner and ban/appeal behaviour,
  `src/api/owner.ts` and the styling configuration are outside the modelled core.
