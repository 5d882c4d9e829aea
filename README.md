# True Number client: stores, countdown, route guard and form rules

A Dafny model of the logic in the Next.js client of the True Number game. Most of the client draws the screen or forwards requests. What remains is modelled here:

- **Game-room cache** (`GameStore`). This is the zustand store of known rooms. `addGame` prepends a room. `updateGameRoom`, `playGame` and `forfeitGame` remove every entry with the room's `_id` and then put the room in front. `fetchRooms` replaces the whole list and handles `isLoading`, `error` and `statusFilter`.
- **Countdown timer** (`GameTimer`). The `CountdownTimer` component keeps two state cells, `seconds` and `isRunning`, and has three effects. Each effect run is one step, and each callback of the one-second interval is one tick. The state also records whether an interval is scheduled and how many `onComplete` calls have been scheduled.
- **Create-room dialog** (`CreateRoom`). It checks that bet ≥ 1 and timeout ≥ 10, sends the create request, and prepends the created room.
- **Single-player game page** (`SinglePlayer`). A number above 70 wins +50 and anything else loses −35. The page then updates the balance, puts the play at the head of the history, and builds the record it sends to be saved.
- **Route guard** (`Middleware`). Pages are classified by path prefix. The guard then decides, from the access-token cookie, its expiry and how a refresh ends, whether to let the request through, redirect to `/`, or redirect to `/game`. It deletes the session cookies when no valid token is left.
- **Dashboard store and user store** (`DashboardStore`, `UserStore`). These are small loading/error state machines, plus the dashboard selectors.
- **Form rules** (`AuthSchema`, `UserSchema`). These are the zod schemas for login, sign-up and the user form.
- **Sidebar highlighting** (`AppSidebar`) and the **room filter hook** (`GameFilter`).

Network results, the random draw, the clock and the token's decoded payload are parameters. A server action's reply is an `ActionResult` (`Success(data)` or `Failure(error)`). An awaited call either resolves or rejects (`Outcome`), so every `catch` branch is modelled. Where the source mutates state step by step, the model is a class with the same fields. Each method's `ensures` ties the new state to a pure function of the old state, and the lemmas are proved about those functions.

`updateGameRoom` always replaces the entry, whatever `updatedAt` says. The client has no stale-update check, no turn-ownership test and no listener for player moves, so the model states none of these.

## Model

| member | source | states |
|---|---|---|
| `GameFilter.QueryParam` | src/hooks/get-game-filter.ts:12 | `'all'` sends no parameter and any other filter sends itself; the parameter determines the filter (`FilterOf` inverts it) |
| `GameStore.Prepend` | src/store/game.store.ts:28-31 | the new room is at index 0, earlier rooms follow in order, the length grows by one, and the count of entries with its id grows by one (no de-duplication) |
| `GameStore.WithoutId` | src/store/game.store.ts:77 | the filter keeps each entry of another id exactly as often as before and in its order (a subsequence), leaves no entry with the id, and is the identity when no entry has the id |
| `GameStore.SubsequenceMultiset` | src/store/game.store.ts:77 | an order-preserving selection never holds an entry more often than the list it selects from |
| `GameStore.WithoutIdIsTheOnlyFilter` | src/store/game.store.ts:77 | any list that is a subsequence of the cache and holds exactly the entries of other ids, as often as before, is the filter's result: the contract of `WithoutId` determines it |
| `GameStore.Upsert` | src/store/game.store.ts:73-79 | after the update exactly one entry has the room's id; it is at index 0, equals the room, and is what a lookup by id finds; the other members are exactly the earlier ones with other ids |
| `GameStore.UpsertKeepsOthersInOrder` | src/store/game.store.ts:77 | the entries with other ids are the same as before, in the same relative order |
| `GameStore.UpsertLeavesOtherLookups` | src/store/game.store.ts:73-79 | a lookup of any other id finds the same room before and after the update |
| `GameStore.UpsertIdempotent` | src/store/game.store.ts:73-79 | applying the same room twice gives the same list as applying it once |
| `GameStore.UpsertLastWriterWins` | src/store/game.store.ts:73-79 | of two updates to one id, the list is as if only the later one had been applied |
| `GameStore.UpsertKeepsDistinctIds` | src/store/game.store.ts:73-79 | a cache without duplicate ids stays without duplicates |
| `GameStore.PrependDuplicatesCachedRoom` | src/store/game.store.ts:28-31 | prepending a room that is already cached leaves two entries with its id |
| `GameStore.ReturnedRoom` | src/store/game.store.ts:98-99 | play/forfeit return a room exactly when the call resolved with `success` and `data` present, and then they return that data |
| `GameStore.Store.constructor` | src/store/game.store.ts:22-26 | the store starts with no rooms, not loading, no error, and filter `'all'` |
| `GameStore.Store.AddGame` | src/store/game.store.ts:28-31 | the room list becomes `Prepend` of the old one; nothing else changes |
| `GameStore.Store.UpdateGameRoom` | src/store/game.store.ts:73-79 | the room list becomes `Upsert` of the old one; nothing else changes |
| `GameStore.RoomsFetchStarted` | src/store/game.store.ts:34 | while the list request is awaited, loading is on and the error is cleared; list and filter are kept |
| `GameStore.RoomsFetchFinished` | src/store/game.store.ts:36-49 | on success the list is replaced wholesale by the reply and the filter recorded. On failure the error is the server's message or the fallback, and on a throw it is the thrown message; both keep the list and filter. `isLoading` is false afterwards |
| `GameStore.RoomWrittenDuringFetch` | src/store/game.store.ts:28-49 | a room added or updated while the list request is awaited is lost when the request succeeds, and kept when it fails or throws |
| `GameStore.Store.FetchRooms` | src/store/game.store.ts:33-50 | sends `QueryParam(status)`; the state becomes `RoomsFetchFinished(RoomsFetchStarted(old state))` |
| `GameStore.Store.StartFetchRooms` | src/store/game.store.ts:34-38 | sends `QueryParam(status)`; the state becomes `RoomsFetchStarted` of the old state |
| `GameStore.Store.FinishFetchRooms` | src/store/game.store.ts:40-49 | the state becomes `RoomsFetchFinished` of the state found when the request ends |
| `GameStore.Store.SetStatusFilter` | src/store/game.store.ts:52-54 | only `statusFilter` changes |
| `GameStore.Store.JoinRoom` | src/store/game.store.ts:56-72 | writes nothing to the store; emits the join event for the requested id exactly when the join succeeded |
| `GameStore.Store.GetGameRoom` | src/store/game.store.ts:81-93 | returns the fetched room exactly on success, and nothing on failure or throw |
| `GameStore.Store.PlayGame` | src/store/game.store.ts:95-119 | on success, replace-and-prepend with the returned room and return it; otherwise the list is unchanged and nothing is returned |
| `GameStore.Store.ForfeitGame` | src/store/game.store.ts:120-147 | same as play, for the forfeit response |
| `GameStore.Store.ApplyReturnedRoom` | src/store/game.store.ts:95-147 | the reply handling shared by play and forfeit: returns `ReturnedRoom(response)`, and the list becomes `Upsert` with that room when there is one and stays unchanged otherwise; no other field changes |
| `GameTimer.Mounted` | src/components/game-room/game-timer.tsx:18-19 | on mount, seconds = `initialSeconds`, not running, nothing scheduled |
| `GameTimer.InitialSecondsChanged` | src/components/game-room/game-timer.tsx:21-24 | the first effect on a new `initialSeconds` resets the count to it and stops the timer, clearing its interval |
| `GameTimer.NewInitialSeconds` | src/components/game-room/game-timer.tsx:21-33 | a new `initialSeconds` resets the count and stops the timer, and the start/stop effect that follows restarts it from the new count exactly when `start && !stop` |
| `GameTimer.StartStop` | src/components/game-room/game-timer.tsx:26-33 | `stop` wins and halts the timer; otherwise `start` on a stopped timer runs it from `initialSeconds` with an interval; in every other case nothing changes |
| `GameTimer.CallbackChanged` | src/components/game-room/game-timer.tsx:35-50 | a new `onComplete` reschedules the interval exactly when `isRunning` holds |
| `GameTimer.AfterRunningChange` | src/components/game-room/game-timer.tsx:35-49 | the interval effect: when `isRunning` changes, an interval is live afterwards exactly when now running; when it does not change, the interval is left as it was; the count, the running flag and the completions are untouched |
| `GameTimer.NextSeconds` | src/components/game-room/game-timer.tsx:39-46 | the updater never yields a negative count; above 1 it subtracts exactly 1; otherwise it yields 0 |
| `GameTimer.Tick` | src/components/game-room/game-timer.tsx:38-47 | with no interval nothing happens; above 1 the count drops by one; at 1 or below it becomes 0, the interval clears itself and one `onComplete` is scheduled |
| `GameTimer.Ticks` | src/components/game-room/game-timer.tsx:38-49 | repeated periods never schedule an interval on a stopped timer and never change `isRunning` |
| `GameTimer.NoIntervalNoTicks` | src/components/game-room/game-timer.tsx:36 | while no interval is scheduled, time passing changes nothing |
| `GameTimer.CountdownCompletesAfterExactlyN` | src/components/game-room/game-timer.tsx:38-49 | a live countdown at n ≥ 1 reads n − k after k < n periods; from the n-th period on it reads 0 with exactly one more completion and no interval |
| `GameTimer.FreshStartCompletesOnce` | src/components/game-room/game-timer.tsx:26-49 | from a fresh start with n ≥ 1, `onComplete` is scheduled exactly once, after exactly n periods |
| `GameTimer.StopBeforeZeroNeverCompletes` | src/components/game-room/game-timer.tsx:26-49 | a start followed by a stop before zero never schedules `onComplete`, however long the timer is left |
| `GameTimer.SecondsStayNonNegative` | src/components/game-room/game-timer.tsx:39-47 | starting from a non-negative count, the count stays non-negative |
| `GameTimer.NewCallbackAfterCompletionFiresAgain` | src/components/game-room/game-timer.tsx:35-50 | after completion with `isRunning` still set, a new `onComplete` gets a fresh interval and is scheduled again on the next period |
| `GameTimer.CountdownTimer.constructor` | src/components/game-room/game-timer.tsx:18-19 | the component's state is `Mounted(initialSeconds)` |
| `GameTimer.CountdownTimer.SyncInterval` | src/components/game-room/game-timer.tsx:35-49 | the interval effect on the component: after a change of `isRunning` from `wasRunning` the interval is live exactly when running, otherwise it is untouched; no other field changes |
| `GameTimer.CountdownTimer.OnInitialSecondsChange` | src/components/game-room/game-timer.tsx:21-24 | the state becomes `InitialSecondsChanged` of the old state |
| `GameTimer.CountdownTimer.OnStartStop` | src/components/game-room/game-timer.tsx:26-33 | the state becomes `StartStop` of the old state |
| `GameTimer.CountdownTimer.OnCallbackChange` | src/components/game-room/game-timer.tsx:35-50 | the state becomes `CallbackChanged` of the old state |
| `GameTimer.CountdownTimer.OnInterval` | src/components/game-room/game-timer.tsx:38-47 | the state becomes `Tick` of the old state; it reports firing exactly when an interval was live and the count was at most 1 |
| `GameTimer.CountdownTimer.Elapse` | src/components/game-room/game-timer.tsx:38-49 | k interval periods leave the state `Ticks(old state, k)` |
| `CreateRoom.RequestFor` | src/components/game-room/create-room-dialog.tsx:35-42 | a request is sent exactly when bet ≥ 1 and timeout ≥ 10, and it carries exactly those values |
| `CreateRoom.InputAccepted` | src/components/game-room/create-room-dialog.tsx:35 | the guard lets the input through exactly when bet ≥ 1 and timeout ≥ 10 |
| `CreateRoom.CreatedRoom` | src/components/game-room/create-room-dialog.tsx:42-44 | a room reaches the store exactly when the create call resolved with success, and it is the returned data |
| `CreateRoom.CreateRoomDialog.constructor` | src/components/game-room/create-room-dialog.tsx:25 | the dialog starts not creating |
| `CreateRoom.CreateRoomDialog.HandleCreateRoom` | src/components/game-room/create-room-dialog.tsx:31-56 | on rejected input it returns before touching `isCreating` or the store. Otherwise it sends the request with the entered values, prepends the created room on success, and leaves `isCreating` false |
| `SinglePlayer.GeneratedNumber` | src/app/game/page.tsx:28 | a draw in [0, 1) gives a number in 0..100 |
| `SinglePlayer.VerdictFor` | src/app/game/page.tsx:32 | the result is a win exactly when 70 < n ≤ 100 |
| `SinglePlayer.PointsFor` | src/app/game/page.tsx:32-47 | a win is worth +50 and a loss −35, matching the rules text in src/components/game/game-controls.tsx |
| `SinglePlayer.Play` | src/app/game/page.tsx:32-68 | the entry carries the number, the verdict, its points, and `newBalance` = previous balance + points |
| `SinglePlayer.SaveRequestFor` | src/app/game/page.tsx:75-81 | the saved record carries the same number, new balance and result as the local entry; nothing is sent without a loaded user |
| `SinglePlayer.AfterPlay` | src/app/game/page.tsx:70-73 | the balance becomes the new balance; the new entry heads the history and earlier entries follow in order |
| `SinglePlayer.PlaysKeepLedger` | src/app/game/page.tsx:60-73 | over any sequence of plays, each entry's balance is the older entry's balance plus its own change, and the balance is the sum of all changes |
| `SinglePlayer.BalanceBounds` | src/app/game/page.tsx:60-73 | after k plays from the initial state, −35·k ≤ balance ≤ 50·k |
| `SinglePlayer.GamePage.constructor` | src/app/game/page.tsx:14-17 | the page starts with balance 0 and an empty history |
| `SinglePlayer.GamePage.GenerateNumber` | src/app/game/page.tsx:27-92 | the state becomes `AfterPlay` for the drawn number; the record sent is `SaveRequestFor` the new entry |
| `Middleware.IsTokenExpired` | src/middleware.ts:34-42 | an undecodable token counts as expired; a decoded one is expired exactly when `exp < now`; a payload without `exp` never is |
| `Middleware.IsAuthPage` | src/middleware.ts:47-48 | a path is an auth page exactly when it is `/` or its first five characters are `/auth` |
| `Middleware.IsProtectedPage` | src/middleware.ts:49-50 | a path is protected exactly when it begins with `/game` or `/dashboard`; `/` is never protected |
| `Middleware.Decide` | src/middleware.ts:44-91 | with a valid token: auth pages redirect to `/game` and every other page passes. An expired token whose refresh succeeds passes. A refresh that throws redirects to `/` and deletes no cookie. Otherwise protected pages redirect to `/`, other pages pass, and all three session cookies are deleted |
| `Middleware.AuthAndProtectedDisjoint` | src/middleware.ts:47-50 | no path is both an auth page and a protected page |
| `Middleware.ProtectedPageNeedsSession` | src/middleware.ts:44-91 | a protected page is let through only with a present token that is valid or was refreshed |
| `Middleware.RedirectTargetPassesThrough` | src/middleware.ts:64-90 | the target of a redirect is let through under the same cookie and refresh result, except when the refresh throws: then `/` redirects to itself |
| `DashboardStore.UsersStarted` | src/store/dashboard.store.ts:36 | `fetchUsers` first sets loading on and clears the error, touching no history field |
| `DashboardStore.UsersFinished` | src/store/dashboard.store.ts:38-57 | on success, users become `result.users ?? []` and the count `result.total ?? 0`. On failure a non-empty error is set. On a throw the error is the thrown message or the fallback. Users and count are kept on every failure, loading is off, and history fields are untouched |
| `DashboardStore.HistoryStarted` | src/store/dashboard.store.ts:62 | `fetchHistory` first sets loading on and clears the error, touching no user field |
| `DashboardStore.HistoryFinished` | src/store/dashboard.store.ts:64-85 | on success, the history is replaced and `gamesPlayedCount` equals its length; on failure a non-empty error is set and the history is kept; loading is off; user fields are untouched |
| `DashboardStore.UsersFetched` | src/store/dashboard.store.ts:35-58 | `fetchUsers` as a whole: a success installs `users ?? []` and `total ?? 0` and leaves no error. A failure or throw keeps the users and count from before the call and leaves an error. Loading ends, and the history fields are never touched |
| `DashboardStore.HistoryFetched` | src/store/dashboard.store.ts:61-85 | `fetchHistory` as a whole: a success installs `history ?? []`, counts it and leaves no error. A failure or throw keeps the history and count from before the call and leaves an error. Loading ends, and the user fields are never touched |
| `DashboardStore.UsersFetchedError` | src/store/dashboard.store.ts:35-57 | after `fetchUsers`, loading is off and an error is left exactly when the fetch did not succeed |
| `DashboardStore.FetchStepsCommute` | src/store/dashboard.store.ts:88-91 | each step of the user fetch commutes with each step of the history fetch, so the concurrent `fetchDashboardData` ends in the same state under every interleaving |
| `DashboardStore.ErrorsReset` | src/store/dashboard.store.ts:94-96 | both errors become null and nothing else changes |
| `DashboardStore.SelectUsersData` | src/store/dashboard.store.ts:100-105 | reports exactly the user fields |
| `DashboardStore.SelectHistoryData` | src/store/dashboard.store.ts:107-112 | reports exactly the history fields |
| `DashboardStore.SelectDashboardStats` | src/store/dashboard.store.ts:114-119 | loading is `usersLoading \|\| historyLoading`; `hasErrors` holds exactly when either error is a non-empty string |
| `DashboardStore.StatsAfterDashboardData` | src/store/dashboard.store.ts:87-119 | after both fetches nothing is loading, and errors are reported exactly when a fetch failed or threw a non-empty message |
| `DashboardStore.Store.constructor` | src/store/dashboard.store.ts:25-33 | the store starts empty, not loading, without errors, with zero counts |
| `DashboardStore.Store.FetchUsers` | src/store/dashboard.store.ts:35-58 | the state becomes `UsersFinished(UsersStarted(old state))` |
| `DashboardStore.Store.FetchHistory` | src/store/dashboard.store.ts:61-85 | the state becomes `HistoryFinished(HistoryStarted(old state))` |
| `DashboardStore.Store.FetchDashboardData` | src/store/dashboard.store.ts:88-91 | the end state is the same whichever fetch completes first |
| `DashboardStore.Store.ResetErrors` | src/store/dashboard.store.ts:94-96 | the state becomes `ErrorsReset` of the old state |
| `UserStore.FetchStarted` | src/store/user.store.ts:23 | while the request is awaited, loading is on, the error is cleared and the user is kept |
| `UserStore.FetchSettled` | src/store/user.store.ts:24-36 | a truthy error is recorded and keeps the user; otherwise a returned user replaces the current one; a throw records a fixed message; loading is off afterwards |
| `UserStore.ClearDuringFetch` | src/store/user.store.ts:22-39 | a `clearUser` during the await is undone exactly when the request then returns a user without an error |
| `UserStore.CurrentUserFetched` | src/store/user.store.ts:22-37 | loading is off afterwards. A truthy error is recorded and keeps the user. Otherwise the error is cleared and a returned user replaces the old one. A throw records a fixed message and keeps the user |
| `UserStore.FetchKeepsUserUnlessReplaced` | src/store/user.store.ts:22-37 | a fetch never clears a loaded user, never leaves an empty error, and leaves an error exactly when the call threw or returned a truthy error |
| `UserStore.Store.constructor` | src/store/user.store.ts:15-18 | no user, not loading, no error |
| `UserStore.Store.SetUser` | src/store/user.store.ts:20 | only `user` changes |
| `UserStore.Store.FetchCurrentUser` | src/store/user.store.ts:22-37 | the state becomes `CurrentUserFetched` of the old state |
| `UserStore.Store.StartFetchCurrentUser` | src/store/user.store.ts:23 | the state becomes `FetchStarted` of the old state |
| `UserStore.Store.FinishFetchCurrentUser` | src/store/user.store.ts:24-36 | the state becomes `FetchSettled` of the state found when the request ends |
| `UserStore.Store.ClearUser` | src/store/user.store.ts:39 | `user` becomes null and nothing else changes |
| `AuthSchema.LoginIssues` | src/schema/auth-schema.ts:3-6 | a login form is accepted exactly when the password has at least 6 characters |
| `AuthSchema.SignupIssues` | src/schema/auth-schema.ts:8-19 | a sign-up form is accepted exactly when the password has ≥ 6 characters, the role is `user` or `admin`, the phone has ≥ 9 characters and the confirmation equals the password. Each field rule raises its own issue exactly when broken. The mismatch is reported on `confirmPassword`, and only when the role is valid, because an invalid enum value aborts the object before the refinement |
| `AuthSchema.InvalidRoleHidesMismatch` | src/schema/auth-schema.ts:12-19 | with an invalid role a password mismatch is not reported; once the role is valid it is |
| `AuthSchema.ConfirmationOnlyChecksEquality` | src/schema/auth-schema.ts:11-19 | with matching passwords, no issue is reported on `confirmPassword`, however short it is |
| `AuthSchema.SignupPasswordPassesLogin` | src/schema/auth-schema.ts:5-10 | a password the sign-up form accepts passes the login rule |
| `UserSchema.ParseUserForm` | src/schema/user-schema.ts:3-14 | a form parses exactly when the username has ≥ 3 characters, the role is `user` or `admin`, and the phone has exactly 9 characters. The parsed values keep every field, and an absent balance becomes 0 |
| `UserSchema.OptionalFieldsDoNotMatter` | src/schema/user-schema.ts:7-12 | first name, last name, bio, picture and balance, present or absent, never decide validity |
| `UserSchema.PhoneRulesCompared` | src/schema/user-schema.ts:9 | an accepted user-form phone meets the sign-up minimum, but a 10-character phone is refused |
| `AppSidebar.IsActive` | src/components/miscellenous/app-sidebar.tsx:36-40 | the Dashboard entry is active exactly on `/dashboard`; any other entry is active exactly when the path starts with its own |
| `AppSidebar.UsersActiveOnLongerName` | src/components/miscellenous/app-sidebar.tsx:39 | the prefix test works on characters: `/dashboard/usersX` highlights the Users entry |
| `AppSidebar.AtMostOneActive` | src/components/miscellenous/app-sidebar.tsx:23-40 | for any path, at most one of the two entries is active |
| `AppSidebar.ActiveEntry` | src/components/miscellenous/app-sidebar.tsx:23-40 | exactly Dashboard on `/dashboard`, exactly Users under `/dashboard/users`, and none elsewhere |

## Left out

- Rendering, toasts, dialogs and router navigation (`router.push` after creating a room) are presentation. Only the state and the requests they accompany are modelled.
- The HTTP and cookie wrappers are not modelled (server actions, axios interceptors and retry). Their results are parameters: a resolved `ActionResult` or a rejection. A server action that resolves to `undefined` is folded into the failure cases. In `fetchRooms` it throws into the `catch` (`response.error` of `undefined`). In `joinRoom`, `getGameRoom`, `playGame` and `forfeitGame` the `response?.success` test takes the `else` branch, which has the same effect as a failure.
- The socket connection and subscription hooks are not modelled. `JoinRoom` returns the room id it would emit for, and assumes the socket is always available. The hooks' effects on the cache are `addGame` and `updateGameRoom`, which are modelled.
- `GameStore.Store.FetchRooms` assumes a successful reply always carries `games`. A reply without it would make `gameRooms` undefined. `addGame`'s `state.gameRooms \|\| []` exists for that case and is a no-op in the model.
- The game store's `catch` reads `(err as Error).message`. The model gives no message for a thrown value that is not an `Error`.
- `GameStore.Store.GetGameRoom`, `JoinRoom`, `PlayGame` and `ForfeitGame` do not model the request they send. Only their effect on the store and what they return are modelled.
- `GameTimer`: React's scheduling of effects and renders is not modelled. Each effect run is one step on the current state, and interval periods are discrete ticks, not wall-clock time. `onComplete` is counted when scheduled (`setTimeout(..., 0)`), not when it runs.
- `CreateRoom`: the bet and timeout are integers. `Number()` parsing of the text fields is not modelled, nor its `NaN` result, which passes the guard because comparisons with `NaN` are false.
- `SinglePlayer`: the draw from `Math.random` is a parameter. The timestamp of an entry and the reply to the save request are left out, since they only choose a toast. The page computes the new balance from the rendered state and the history from the updater's `prev`; they agree here because plays are taken one at a time.
- `Middleware`: base64 decoding, `JSON.parse` and `Date.now` become a `DecodedToken` and a time parameter. The `matcher` regex that chooses which requests reach the guard is not modelled.
- `AuthSchema` and `UserSchema` leave out the e-mail format rule. Lengths count characters, while zod counts UTF-16 code units. The user form's role message stands in for zod's default enum message. The sign-up equality refinement runs when the role is valid, whatever length rules fail; that matches zod, where a length failure does not abort and an invalid enum value does.
- `UserSchema.ParseUserForm`: balance is an integer, not a JavaScript number.
