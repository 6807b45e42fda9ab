# UMANS admin dashboard: a Dafny model of its page caches and list endpoints

UMANS is a user-and-app management dashboard. Its React front end keeps the
apps, users, roles and sessions lists in Redux slices. Each list is cached
page by page. For apps and users the cache is split into an active and an
inactive partition. The analytics slice holds the dashboard's eight data
fields behind one shared `loading` flag. The Express back end serves the
paginated role and session lists and the analytics figures. It also keeps a
time-limited in-memory copy of the allowed CORS origins.

This project models that core in Dafny. Every part follows the form of the
code it models:

- **Reducers** mutate state in place. Each slice is a class, each reducer
  case a method with a `modifies` clause. The effect of each method is tied
  to a value-level function over the cache (`PageCache.Store`, `Patch`,
  `Filter`, `Invalidate`). The properties are proved as lemmas about those
  functions.
- **`Object.keys(...).forEach` walks** over cached pages are loops
  (`PageCache.PatchPages`, `PageCache.FilterPages`). They are proved equal to
  the map they compute.
- **Controllers** are pure request-to-reply functions. The database, Redis,
  the clock and the environment are parameters.
- **The CORS origins cache** is a class whose method overwrites the cached
  list and its expiry.

Modules, one per file:

- `Wrappers`: Option and Result types.
- `Js`: `parseInt(x) || d`, `join`, `split`, `trim`.
- `PageCache`: the page cache shared by the slices.
- `ThunkErrors`: the rejection rule of the async actions.
- `AppsSlice`, `UsersSlice`, `RolesSlice`, `SessionsSlice`, `AnalyticsSlice`: the slices.
- `AppsTable`: the apps table component.
- `Pagination`, `RolesController`, `SessionController`, `AnalyticsController`: the back-end endpoints.
- `CorsService`: the allowed-origins cache.

One behaviour differs from what the code's own comment announces: the
comment at frontend/src/store/slices/appsSlice.js:220 speaks of invalidating
the target cache, but when an app update moves a record between partitions,
lines 221-228 clear the partition the record came FROM, not the one it moves
to. The model follows the code. `AppsSlice.ReconciledSpec`
states it, and `AppsTable.UpdateMoveRefetchesOrigin` shows what the table
then does.

## Model

| member | source | states |
|---|---|---|
| Js.IntOr | backend/controllers/rolesController.js:24-25 | `parseInt(x) \|\| d`: a failed parse (NaN) and 0 both give the default; any other parse is kept |
| Js.IntOrNonZero | backend/controllers/rolesController.js:24-25 | with a positive default the result is never 0, and it is negative exactly when the parse was negative |
| Js.StrOr | backend/controllers/analyticsController.js:300 | `s \|\| d` on strings: absent and empty give the default, anything else is kept |
| Js.Join | frontend/src/store/slices/appsSlice.js:31 | `join`: a single part is returned as it is |
| Js.JoinEmptyIff | frontend/src/store/slices/appsSlice.js:31 | a join with a non-empty separator is empty iff there are no parts or one empty part, so an empty `errors` array or a single blank message selects the fallback |
| Js.Split | backend/services/corsService.js:42 | `split` on one character gives at least one piece, and no piece contains the separator |
| Js.JoinSplit | backend/services/corsService.js:42 | joining the pieces of a split with the separator gives back the input |
| Js.TrimStart | backend/services/corsService.js:42 | the result is a suffix of the input; only whitespace was cut, and the result does not start with whitespace |
| Js.TrimEnd | backend/services/corsService.js:42 | the result is a prefix of the input; only whitespace was cut, and the result does not end with whitespace |
| Js.TrimIsSlice | backend/services/corsService.js:42 | `trim` returns a slice of its input with only whitespace cut off on either side, neither starting nor ending with whitespace |
| Js.TrimIdempotent | backend/services/corsService.js:42 | trimming twice is trimming once |
| Js.TrimPlain | backend/services/corsService.js:42 | a string without whitespace is left unchanged by `trim` |
| PageCache.RecordsOf | frontend/src/store/slices/rolesSlice.js:121 | `data.roles \|\| []`: a missing list caches an empty page, a present one is cached as it is |
| PageCache.TotalOf | frontend/src/store/slices/rolesSlice.js:125 | `data.totalPages \|\| 0`: a missing count reads as 0 |
| PageCache.AddLoaded | frontend/src/store/slices/rolesSlice.js:122-124 | the page is added to the loaded list only if absent; the result's members are the old ones plus the page, and no duplicate is created |
| PageCache.StoreCoherent | frontend/src/store/slices/rolesSlice.js:121-124 | storing a page keeps the loaded list equal to the map's key set with no duplicates; the page then holds the stored records and the other pages are unchanged |
| PageCache.StoreIdempotent | frontend/src/store/slices/rolesSlice.js:121-124 | storing the same page twice equals storing it once, in the map and in the loaded list |
| PageCache.FindIndex | frontend/src/store/slices/rolesSlice.js:165 | `findIndex`: -1 iff no record has the id, otherwise the first index holding it |
| PageCache.RemoveId | frontend/src/store/slices/sessionsSlice.js:130-132 | the filtered page is no longer, holds no record with the id, and is unchanged when it held none |
| PageCache.RemoveIdMembers | frontend/src/store/slices/sessionsSlice.js:130-132 | a record survives the filter iff it was there and has another id |
| PageCache.RemoveIdAppend | frontend/src/store/slices/sessionsSlice.js:130-132 | filtering distributes over concatenation, so the kept records keep their relative order |
| PageCache.RemoveIdIdempotent | frontend/src/store/slices/sessionsSlice.js:130-132 | filtering twice is filtering once |
| PageCache.ReplaceByIdSpec | frontend/src/store/slices/rolesSlice.js:157-161 | `map(x => x.id === r.id ? r : x)` keeps the length; entries with the id become the record and the others stay at their index |
| PageCache.PatchedPages | frontend/src/store/slices/rolesSlice.js:163-169 | an update walk never adds or drops a page number |
| PageCache.PatchPages | frontend/src/store/slices/appsSlice.js:189-202 | the loop over the page keys computes exactly the patched map, and `found` is set iff some cached page held the id |
| PageCache.PatchKeepInPlace | frontend/src/store/slices/rolesSlice.js:163-169 | an in-place patch keeps every page's length and every record with another id at its index; with unique ids per page every copy of the id becomes the new record |
| PageCache.PatchRemoveGone | frontend/src/store/slices/appsSlice.js:195-196 | after a removing walk no page holds the id, and each page is the filtered original |
| PageCache.FilteredPages | frontend/src/store/slices/sessionsSlice.js:129-133 | the delete keeps every page number and leaves no record with the id |
| PageCache.FilteredIdempotent | frontend/src/store/slices/sessionsSlice.js:129-133 | deleting the same id twice equals deleting it once |
| PageCache.FilterPages | frontend/src/store/slices/sessionsSlice.js:129-133 | the loop over the page keys computes exactly the filtered map |
| PageCache.Empty | frontend/src/store/slices/rolesSlice.js:91-95 | the cleared cache has no pages, an empty loaded list, a total of 0, and is coherent |
| PageCache.StoreSpec | frontend/src/store/slices/rolesSlice.js:116-127 | a fulfilled fetch keeps the cache coherent; the page is loaded with `data.roles \|\| []`, the total is `data.totalPages \|\| 0`, every other page is unchanged, and the loaded list grows by one iff the page was new |
| PageCache.StoreReplay | frontend/src/store/slices/rolesSlice.js:116-127 | replaying a fulfilment is the same as applying it once |
| PageCache.StoreLastWins | frontend/src/store/slices/rolesSlice.js:121 | of two fulfilments of one page, the later is what stays cached |
| PageCache.InvalidateSpec | frontend/src/store/slices/rolesSlice.js:143-144 | after a create no page is cached or marked loaded, while the total is kept |
| PageCache.PatchKeepSpec | frontend/src/store/slices/rolesSlice.js:162-169 | an in-place update keeps coherence, the loaded list, the total, the page numbers and lengths, and the other records; with unique ids each copy of the id becomes the new record |
| PageCache.PatchRemoveSpec | frontend/src/store/slices/appsSlice.js:195-196 | a removing walk keeps coherence and the loaded list, and leaves no copy of the id |
| PageCache.FilterSpec | frontend/src/store/slices/sessionsSlice.js:128-133 | a delete keeps the page numbers and the loaded list, removes every copy of the id, keeps every other record, and is idempotent |
| PageCache.RefReplaced | frontend/src/store/slices/rolesSlice.js:157-161 | an updated record replaces every entry with its id in the reference list, unless the list is still the `'empty'` sentinel, which stays as it is |
| PageCache.RefFiltered | frontend/src/store/slices/sessionsSlice.js:125-127 | a deleted record's id is filtered out of the reference list, unless the list is still the `'empty'` sentinel, which stays as it is |
| PageCache.RefAppended | frontend/src/store/slices/rolesSlice.js:139-141 | a created record is appended to the reference list unless the list is still the `'empty'` sentinel |
| PageCache.PatchValid | frontend/src/store/slices/rolesSlice.js:163-169 | an update walk keeps the cache coherent |
| PageCache.PatchAbsent | frontend/src/store/slices/appsSlice.js:189-218 | a walk for an id no page holds changes nothing |
| PageCache.StoreIn | frontend/src/store/slices/appsSlice.js:130-142 | a fulfilled fetch stores the page in the partition `isActive` selects and leaves the other partition untouched |
| ThunkErrors.Reject | frontend/src/store/slices/appsSlice.js:29-38 | with no response body the action rejects without payload or notification; otherwise the payload is set and shown as the error notification |
| ThunkErrors.RejectMessage | frontend/src/store/slices/appsSlice.js:47-56 | the rejection text is never empty; it is the join of the field errors when there is something to join, otherwise the join fallback; without field errors it is `msg`, or the message fallback when `msg` is missing or empty |
| ThunkErrors.CreateUserReject | frontend/src/store/slices/usersSlice.js:48-56 | `createUser` rejects with the same text as the shared rule, but shows no notification when the body has field errors |
| AppsSlice.ReconciledSpec | frontend/src/store/slices/appsSlice.js:184-229 | an app update patches the record in place in the partition of its new status; the other (origin) partition is dropped wholesale, keeping its total, iff it held the record, and is otherwise untouched; no copy is left there; coherence is kept |
| AppsSlice.ReconcileCaches | frontend/src/store/slices/appsSlice.js:184-229 | the two walks over the partitions, followed by dropping at most one of them, compute exactly `Reconciled` of the old cache, and the result is coherent |
| AppsSlice.ReconciledCopies | frontend/src/store/slices/appsSlice.js:189-218 | with unique ids per page, every copy of the id still cached after the update is the new record |
| AppsSlice.AppsState.constructor | frontend/src/store/slices/appsSlice.js:77-90 | the initial state: sentinel reference list, both partitions empty, nothing loading, no error |
| AppsSlice.AppsState.ClearPaginatedCache | frontend/src/store/slices/appsSlice.js:96-103 | both partitions are emptied with totals 0, and nothing else changes |
| AppsSlice.AppsState.GetAppsFulfilled | frontend/src/store/slices/appsSlice.js:112-116 | the reference list becomes the server's list and loading ends; the cache is unchanged |
| AppsSlice.FetchRejection | frontend/src/store/slices/appsSlice.js:29-37 | `getApps` and `getAppsPaginated` reject with a payload exactly when the server answered; it is never empty (fallback "Getting apps failed") and is also the notification |
| AppsSlice.CreateRejection | frontend/src/store/slices/appsSlice.js:47-55 | `createApp` rejects with a payload exactly when the server answered; it is never empty (fallbacks "Signup failed" and "Something went wrong") and is also the notification |
| AppsSlice.UpdateRejection | frontend/src/store/slices/appsSlice.js:65-73 | `updateApp` rejects by the same rule and fallbacks as `createApp` |
| AppsSlice.AppsState.GetAppsPending | frontend/src/store/slices/appsSlice.js:107-111 | loading is set and both the error and the message are cleared; the cache and the list are unchanged |
| AppsSlice.AppsState.GetAppsPaginatedPending | frontend/src/store/slices/appsSlice.js:121-124 | loading is set and the error cleared, and nothing else changes |
| AppsSlice.AppsState.GetAppsPaginatedFulfilled | frontend/src/store/slices/appsSlice.js:125-144 | the new cache is `StoreIn` of the old one for the page and partition, and loading ends |
| AppsSlice.AppsState.GetAppsPaginatedRejected | frontend/src/store/slices/appsSlice.js:145-148 | loading ends and the error is `FetchRejection` of the failure, so a non-empty message whenever the server answered; the cache is unchanged |
| AppsSlice.AppsState.CreateAppPending | frontend/src/store/slices/appsSlice.js:149-153 | loading is set, and the error and message are cleared |
| AppsSlice.AppsState.CreateAppFulfilled | frontend/src/store/slices/appsSlice.js:154-163 | the app is appended unless the list is the sentinel; only the active partition is invalidated |
| AppsSlice.AppsState.CreateAppRejected | frontend/src/store/slices/appsSlice.js:164-167 | loading ends and the error is `CreateRejection` of the failure; the cache is unchanged |
| AppsSlice.AppsState.UpdateAppPending | frontend/src/store/slices/appsSlice.js:168-171 | the row being saved is marked and the error cleared |
| AppsSlice.AppsState.UpdateAppFulfilled | frontend/src/store/slices/appsSlice.js:172-230 | the mark is cleared, the reference list is mapped, and the new cache is `Reconciled` of the old (see ReconciledSpec) |
| AppsSlice.AppsState.UpdateAppRejected | frontend/src/store/slices/appsSlice.js:231-235 | the mark is cleared and the error is `UpdateRejection` of the failure; the cache is unchanged |
| UsersSlice.PatchedSpec | frontend/src/store/slices/usersSlice.js:197-212 | a user update patches BOTH partitions in place whatever the new `isActive`: loaded lists, totals, page numbers and lengths are unchanged, other records stay, a present id stays present, and copies become the new record |
| UsersSlice.UsersState.constructor | frontend/src/store/slices/usersSlice.js:95-109 | the initial state: sentinel list, empty partitions, not loading |
| UsersSlice.UsersState.ClearPaginatedCache | frontend/src/store/slices/usersSlice.js:115-122 | both partitions are emptied with totals 0, and nothing else changes |
| UsersSlice.UsersState.GetUsersFulfilled | frontend/src/store/slices/usersSlice.js:130-134 | the reference list becomes the server's list and loading ends |
| UsersSlice.FetchRejection | frontend/src/store/slices/usersSlice.js:30-38 | `getUsers` and `getUsersPaginated` reject with a payload exactly when the server answered; it is never empty (fallback "Getting users failed") and is also the notification |
| UsersSlice.CreateRejection | frontend/src/store/slices/usersSlice.js:48-55 | `createUser` rejects with a payload exactly when the server answered; it is never empty, and field errors show no notification |
| UsersSlice.UpdateRejection | frontend/src/store/slices/usersSlice.js:65-73 | `updateUser` rejects with a payload exactly when the server answered; it is never empty (fallbacks "Updating user failed" and "Something went wrong") and is also the notification |
| UsersSlice.LoadingRejection | frontend/src/store/slices/usersSlice.js:26-57 | the rule of whichever of `getUsersPaginated` and `createUser` rejected; a non-empty payload exactly when the server answered |
| UsersSlice.UsersState.FetchPending | frontend/src/store/slices/usersSlice.js:139-142 | loading is set, the error cleared, and the cache unchanged |
| UsersSlice.UsersState.GetUsersPaginatedFulfilled | frontend/src/store/slices/usersSlice.js:143-162 | the new cache is `StoreIn` of the old one, and loading ends |
| UsersSlice.UsersState.FetchRejected | frontend/src/store/slices/usersSlice.js:163-166 | loading ends and the error is the rejecting thunk's `LoadingRejection` of the failure; the cache is unchanged |
| UsersSlice.UsersState.CreateUserFulfilled | frontend/src/store/slices/usersSlice.js:171-180 | the user is appended unless the list is the sentinel; only the active partition is invalidated |
| UsersSlice.UsersState.UpdateUserPending | frontend/src/store/slices/usersSlice.js:185-188 | the row is marked and the error cleared |
| UsersSlice.UsersState.UpdateUserFulfilled | frontend/src/store/slices/usersSlice.js:189-213 | the mark is cleared, the list is mapped, and the new cache is `Patched` of the old (see PatchedSpec) |
| UsersSlice.UsersState.UpdateUserRejected | frontend/src/store/slices/usersSlice.js:214-217 | the mark is cleared and the error is `UpdateRejection` of the failure |
| RolesSlice.RolesState.constructor | frontend/src/store/slices/rolesSlice.js:76-85 | the initial state: empty cache, not loading, no error |
| RolesSlice.RolesState.ClearPaginatedCache | frontend/src/store/slices/rolesSlice.js:91-95 | pages, loaded list and total are reset, and nothing else changes |
| RolesSlice.RolesState.GetRolesFulfilled | frontend/src/store/slices/rolesSlice.js:103-107 | the reference list becomes the server's list |
| RolesSlice.FetchRejection | frontend/src/store/slices/rolesSlice.js:28-36 | `getRoles` and `getRolesPaginated` reject with a payload exactly when the server answered; it is never empty (fallback "Getting Roles failed") and is also the notification |
| RolesSlice.AddRejection | frontend/src/store/slices/rolesSlice.js:46-54 | `addRole` rejects with a payload exactly when the server answered; it is never empty (fallbacks "Adding failed" and "Something went wrong") and is also the notification |
| RolesSlice.UpdateRejection | frontend/src/store/slices/rolesSlice.js:64-72 | `updateRole` rejects with a payload exactly when the server answered; it is never empty (fallbacks "Updating failed" and "Something went wrong") and is also the notification |
| RolesSlice.LoadingRejection | frontend/src/store/slices/rolesSlice.js:24-56 | the rule of whichever of `getRolesPaginated` and `addRole` rejected; a non-empty payload exactly when the server answered |
| RolesSlice.RolesState.FetchPending | frontend/src/store/slices/rolesSlice.js:112-115 | loading is set and the error cleared |
| RolesSlice.RolesState.GetRolesPaginatedFulfilled | frontend/src/store/slices/rolesSlice.js:116-127 | the new cache is `Store` of the old one (see StoreSpec), and loading ends |
| RolesSlice.RolesState.FetchRejected | frontend/src/store/slices/rolesSlice.js:128-131 | loading ends and the error is the rejecting thunk's `LoadingRejection` of the failure; the cache is unchanged |
| RolesSlice.RolesState.AddRoleFulfilled | frontend/src/store/slices/rolesSlice.js:136-145 | the role is appended unless the list is the sentinel; pages and loaded list are dropped and the total is kept |
| RolesSlice.RolesState.UpdateRolePending | frontend/src/store/slices/rolesSlice.js:150-153 | the row is marked and the error cleared |
| RolesSlice.RolesState.UpdateRoleFulfilled | frontend/src/store/slices/rolesSlice.js:154-170 | the mark is cleared, the list is mapped, and the new cache is `Patch` in place of the old (see PatchKeepSpec) |
| RolesSlice.RolesState.UpdateRoleRejected | frontend/src/store/slices/rolesSlice.js:171-175 | the mark is cleared and the error is `UpdateRejection` of the failure |
| SessionsSlice.ConfirmDelete | frontend/src/store/slices/sessionsSlice.js:46-49 | the delete action resolves with the id iff the body's `msg` is exactly "session deleted permanently" |
| SessionsSlice.SessionsState.constructor | frontend/src/store/slices/sessionsSlice.js:62-71 | the initial state: sentinel list, empty cache, not loading |
| SessionsSlice.SessionsState.ClearPaginatedCache | frontend/src/store/slices/sessionsSlice.js:77-81 | pages, loaded list and total are reset |
| SessionsSlice.SessionsState.GetSessionsFulfilled | frontend/src/store/slices/sessionsSlice.js:89-93 | the reference list becomes the server's list |
| SessionsSlice.FetchRejection | frontend/src/store/slices/sessionsSlice.js:28-36 | `getSessions` and `getSessionsPaginated` reject with a payload exactly when the server answered; it is never empty (fallback "Getting sessions failed") and is also the notification |
| SessionsSlice.DeleteRejection | frontend/src/store/slices/sessionsSlice.js:50-58 | `deleteSession` rejects with a payload exactly when the server answered; it is never empty (fallbacks "Signup failed" and "Something went wrong") and is also the notification |
| SessionsSlice.SessionsState.FetchPending | frontend/src/store/slices/sessionsSlice.js:98-101 | loading is set and the error cleared |
| SessionsSlice.SessionsState.GetSessionsPaginatedFulfilled | frontend/src/store/slices/sessionsSlice.js:102-113 | the new cache is `Store` of the old one, and loading ends |
| SessionsSlice.SessionsState.FetchRejected | frontend/src/store/slices/sessionsSlice.js:114-117 | loading ends and the error is `FetchRejection` of the failure |
| SessionsSlice.SessionsState.DeleteSessionPending | frontend/src/store/slices/sessionsSlice.js:118-121 | the row being deleted is marked and the error cleared |
| SessionsSlice.SessionsState.DeleteSessionFulfilledAsWritten | frontend/src/store/slices/sessionsSlice.js:122-134 | as written: the reducer throws exactly when there is no payload and a filter callback runs, and then the state, row mark included, is unchanged; with a payload the id is filtered out of the list and every page |
| SessionsSlice.SessionsState.DeleteSessionFulfilled | frontend/src/store/slices/sessionsSlice.js:122-134 | corrected: the mark is always cleared; a confirmed id is filtered out of the list and every cached page (see FilterSpec); an unconfirmed delete leaves the cache alone |
| SessionsSlice.SessionsState.DeleteSessionRejected | frontend/src/store/slices/sessionsSlice.js:135-139 | the mark is cleared and the error is `DeleteRejection` of the failure |
| SessionsSlice.UnconfirmedDeleteAsWritten | frontend/src/store/slices/sessionsSlice.js:43-50 | with one cached session and a delete answered by another text, the fulfilled reducer throws and the row stays marked |
| SessionsSlice.UnconfirmedDeleteCorrected | frontend/src/store/slices/sessionsSlice.js:122-134 | the same sequence with the corrected reducer clears the mark and keeps the page |
| AnalyticsSlice.InitialValue | frontend/src/store/slices/analyticsSlice.js:152-163 | overview, user growth and activity start as null; the five list fields start as `[]` |
| AnalyticsSlice.ThunkOutcome | frontend/src/store/slices/analyticsSlice.js:8-21 | an answered fetch resolves with `data`, with a success notification iff `msg` is truthy; a failed one rejects with the response `msg` or the per-fetch fallback, which is never empty |
| AnalyticsSlice.AnalyticsState.constructor | frontend/src/store/slices/analyticsSlice.js:152-163 | every data field has its initial value, not loading, no error |
| AnalyticsSlice.AnalyticsState.ClearAnalytics | frontend/src/store/slices/analyticsSlice.js:165-175 | the eight fields are reset and the error is cleared, while `loading` is left as it is |
| AnalyticsSlice.AnalyticsState.Pending | frontend/src/store/slices/analyticsSlice.js:180-183 | loading is set and the error cleared; every data field is unchanged |
| AnalyticsSlice.AnalyticsState.Fulfilled | frontend/src/store/slices/analyticsSlice.js:184-187 | loading ends, exactly the fetch's own field becomes the payload, and every other field and the error are unchanged |
| AnalyticsSlice.AnalyticsState.Rejected | frontend/src/store/slices/analyticsSlice.js:188-191 | after a failed request, loading ends and the error is the message `ThunkOutcome` rejects that fetch with, which is never empty; every data field is unchanged |
| AnalyticsSlice.SharedLoadingFlag | frontend/src/store/slices/analyticsSlice.js:161-187 | with two fetches pending, the first to finish clears the shared `loading` flag while the other's data is still null |
| AppsTable.CurrentPageApps | frontend/src/components/tables/AppsTable.jsx:27 | the rows shown are the cached page, or `[]` when it is not cached |
| AppsTable.PaginationCount | frontend/src/components/tables/AppsTable.jsx:74 | `totalPages \|\| 1`: a zero total shows one page, and a non-negative total never shows fewer than one |
| AppsTable.ViewReadsOnePartition | frontend/src/components/tables/AppsTable.jsx:24-27 | rows, page count and fetch decision depend only on the partition `isActive` selects |
| AppsTable.FetchIffUncached | frontend/src/components/tables/AppsTable.jsx:35-40 | on a coherent cache with no fetch running, the table fetches a page iff it is not cached, and shows `[]` for it; while loading it never fetches |
| AppsTable.FulfilledPageIsServed | frontend/src/components/tables/AppsTable.jsx:22-40 | after a page is fulfilled the table shows its records and its count, and does not fetch it again |
| AppsTable.CreateForcesActiveRefetch | frontend/src/components/tables/AppsTable.jsx:35-40 | after a create every active page is fetched again with the old page count, while the inactive view is unchanged |
| AppsTable.UpdateMoveRefetchesOrigin | frontend/src/components/tables/AppsTable.jsx:35-40 | after an update that moved an app, every page of its origin partition is fetched again, and the destination's fetch decisions are unchanged |
| AppsTable.TableState.constructor | frontend/src/components/tables/AppsTable.jsx:20 | the table starts on page 1 |
| AppsTable.TableState.HandlePageChange | frontend/src/components/tables/AppsTable.jsx:42-44 | the page becomes the value the pagination control reports |
| AppsTable.TableState.ActiveChanged | frontend/src/components/tables/AppsTable.jsx:30-40 | in the commit of a new `isActive`, the fetch effect asks for the page of that render in the new partition iff that page is not loaded there and nothing is loading, and only then does the page become 1; an unchanged prop keeps the page and asks for nothing |
| AppsTable.StalePageRequest | frontend/src/components/tables/AppsTable.jsx:30-40 | switching from active page 3 to an unloaded inactive partition requests inactive page 3, not page 1, and leaves the table on page 1 |
| AppsTable.TableState.FetchEffect | frontend/src/components/tables/AppsTable.jsx:35-40 | a request for the current page and partition is dispatched iff that page is not loaded there and no fetch is running |
| Pagination.CeilDivSpec | backend/controllers/rolesController.js:38 | `Math.ceil(count / limit)` is the least page count covering every row; one page fewer would not cover them; it is 0 iff there are no rows |
| Pagination.ParseQuery | backend/controllers/rolesController.js:24-26 | page and limit are `parseInt \|\| 1` and `parseInt \|\| 10`, both non-zero; offset is `(page - 1) * limit` |
| Pagination.PaginatedSpec | backend/controllers/rolesController.js:22-48 | a negative limit gives 400 "Invalid limit"; otherwise a store error gives 400 with its message, and a success echoes the rows, `total = count`, `currentPage = page`, and `totalPages` covering the rows with one page fewer not covering them, so `totalPages` is 0 exactly when the table is empty |
| RolesController.GetRolesPaginated | backend/controllers/rolesController.js:22-48 | a negative limit gives 400 "Invalid limit"; a success is 200 and echoes the parsed page |
| RolesController.AddRole | backend/controllers/rolesController.js:52-77 | a missing or falsy `userId` gives 400 "Please select properly"; otherwise the created role is 201, and a create error is 400 with its message |
| RolesController.AddRoleChecksFirst | backend/controllers/rolesController.js:53-57 | without a `userId` the reply does not depend on the create; a role is returned only when a `userId` was given and the create succeeded |
| RolesController.NotFound | backend/controllers/rolesController.js:87 | the 404 text embeds the id at a fixed position |
| RolesController.NotFoundInjective | backend/controllers/rolesController.js:87 | different ids give different 404 texts |
| RolesController.UpdateRole | backend/controllers/rolesController.js:82-108 | 404 with the id's text iff the lookup found nothing; a 200 reply carries the updated role; a lookup error is 400 |
| SessionController.GetSessionsPaginated | backend/controllers/sessionController.js:20-45 | a negative limit gives 400 "Invalid limit"; a success is 200 and echoes the parsed page |
| SessionController.NotFound | backend/controllers/sessionController.js:58 | the 404 text embeds the id at a fixed position |
| SessionController.NotFoundInjective | backend/controllers/sessionController.js:58 | different ids give different 404 texts |
| SessionController.DeleteSession | backend/controllers/sessionController.js:52-79 | 404 with the id's text iff the lookup found nothing; 200 iff the session was found and destroyed; a lookup error is 400 |
| SessionController.DeleteConfirmedBySlice | backend/controllers/sessionController.js:73 | every successful delete body is the exact text the sessions slice tests for, so the slice confirms the delete with the row's id |
| AnalyticsController.GetOverview | backend/controllers/analyticsController.js:39-56 | every count is passed through; active plus inactive is the total for users and apps; admins plus regular users is the number of active users |
| AnalyticsController.OverviewPartitions | backend/controllers/analyticsController.js:44-52 | when the counts are of nested sets, the derived counters are non-negative and admins, regular and inactive users partition all users |
| AnalyticsController.SeriesQueryOf | backend/controllers/analyticsController.js:72-92 | "daily" and "weekly" choose their own format and unit, and anything else, missing included, the monthly one; the limit is `parseInt \|\| 12`, never 0 (getActivityStats, lines 191-210, uses the same rule) |
| AnalyticsController.GroupingsDistinct | backend/controllers/analyticsController.js:78-92 | the reported unit identifies the grouping |
| AnalyticsController.ListLimit | backend/controllers/analyticsController.js:323 | `parseInt \|\| 10` for recent activity and top actions: 10 when the limit is absent, does not parse or parses to 0, and the parsed limit otherwise; never 0 |
| AnalyticsController.Total | backend/controllers/analyticsController.js:107-115 | the running total of the first n periods is at least the n-th count |
| AnalyticsController.Growth | backend/controllers/analyticsController.js:106-115 | the loop yields one point per period, in order, with its label, its count and the sum of the counts so far |
| AnalyticsController.TotalMonotone | backend/controllers/analyticsController.js:107-115 | the running total never decreases |
| AnalyticsController.GrowthSeries | backend/controllers/analyticsController.js:106-115 | the answered totals are non-decreasing, each at least its period's count; the first equals its count and the last is the sum over all periods |
| AnalyticsController.AppUsageOf | backend/controllers/analyticsController.js:164-170 | one entry per app in order, fields passed through, `userCount` defaulting to 0 when null |
| AnalyticsController.OfficesOf | backend/controllers/analyticsController.js:299-302 | one entry per row with its count; a named office keeps its name, a missing or empty one is "Unassigned", so no label is empty |
| AnalyticsController.Shown | backend/controllers/analyticsController.js:347 | a name part is shown as it is, and a null one as "null" |
| AnalyticsController.FullName | backend/controllers/analyticsController.js:347 | the name is the shown first name, then one space, then the shown last name (a null part reads "null") |
| AnalyticsController.FullNameSplits | backend/controllers/analyticsController.js:347 | for a first name without spaces, the space after it is the first space of the name, so the name splits back at its first space |
| AnalyticsController.RecentActivityOf | backend/controllers/analyticsController.js:337-349 | one entry per log in order, fields passed through; `user` is null iff no user is attached, and otherwise carries the id, email and full name |
| CorsService.SelectEnv | backend/services/corsService.js:36-39 | the development variable is read iff `DEBUG` is exactly "true" |
| CorsService.EnvOrigins | backend/services/corsService.js:41-43 | an absent or empty variable gives `[]`; otherwise one trimmed entry per comma-separated piece, none containing a comma |
| CorsService.EnvOriginsTrimmed | backend/services/corsService.js:41-43 | every entry taken from the environment is already trimmed |
| CorsService.EnvOriginsRoundTrip | backend/services/corsService.js:41-43 | a non-empty variable without whitespace is recovered by joining its entries with commas |
| CorsService.Refill | backend/services/corsService.js:19-49 | a refill answers Redis's list on a hit, and the environment's list on a miss or an error |
| CorsService.OriginsCache.constructor | backend/services/corsService.js:4-5 | nothing is cached and the expiry is 0 |
| CorsService.OriginsCache.GetAllowedOrigins | backend/services/corsService.js:10-50 | while a list is cached and unexpired it is returned and nothing changes; otherwise the refilled list is returned and cached until `now + 540000` |
| CorsService.WithinTtl | backend/services/corsService.js:13-16 | two calls less than the TTL apart answer the same list, whatever Redis and the environment say the second time |
| CorsService.AfterTtl | backend/services/corsService.js:46-47 | once the TTL has run out, the next call refills from what Redis and the environment say then |

## Left out

- Network, HTTP and Express plumbing. Responses and request arguments are inputs: the axios calls, the `api/*.js` wrappers, `next(error)` and the error middleware.
- Databases and Redis. The ORM queries (their `where`, `order` and `group` clauses), Redis reads and `JSON.parse` are oracles: a `Result`, an `Option` or a `Lookup` value. A Redis value that parses to `null` or to something other than a list of strings is not modelled.
- `logAction` in the controllers is a call into code that is not part of this model. Its failure, which would be answered with 400, is not modelled.
- Notifications (`showSnackbar`). They are modelled only as the notice text a rejection returns (`ThunkErrors.Rejection.notice`), not as dispatched actions.
- The success notifications of the slice thunks that fetch or update records.
- The backward-compatibility thunks `getApps`, `getUsers`, `getRoles` and `getSessions` have no methods of their own for the cases that match the paginated thunks' reducers: their rejected cases, and the pending cases of `getUsers`, `getRoles` and `getSessions`. `getApps.pending` differs (it also clears `message`) and is `AppsSlice.AppsState.GetAppsPending`; the fulfilled cases are modelled.
- `changePassword` in the users slice. It is not part of the paginated cache.
- `Number(page)` on a non-numeric page. Pages are integers in the model.
- The default `isActive = true` of the paginated thunks. `isActive` is an explicit input.
- `Object.keys` order. The key walks run over the slice's loaded list, which holds exactly the page numbers of the map (`PageCache.Coherent`). Each page is patched independently, so the order does not matter.
- PageCache.Coherent is kept as an invariant (`Valid()`) of each slice class. Every reducer method requires and ensures it, although JavaScript does not check it.
- AppsSlice.AppsState.UpdateAppFulfilled and UsersSlice.UsersState.UpdateUserFulfilled compute the two walks on values (for apps through `AppsSlice.ReconcileCaches`) and assign the fields at the end. The source mutates each partition in place; the outcome is the same because the walks touch disjoint fields.
- UsersSlice.UsersState.GetUsersFulfilled does not model the `message` the reducer writes, because `message` is not part of the users slice's initial state.
- PageCache.Record keeps only `id` and `isActive`. Every other field of an app, user, role or session is one opaque string.
- RolesController.AddRole models `userId` as an optional integer. A missing value and 0 are the falsy values; other falsy JSON values are not distinguished.
- The `count` parsing (`parseInt(item.count)`) of activity statistics, role distribution and top actions, and of user growth (backend/controllers/analyticsController.js:109, 112), app usage (169) and office distribution (301). The store's counts are taken as natural numbers: `AnalyticsController.Growth`, `AnalyticsController.AppUsageOf` and `AnalyticsController.OfficesOf` receive `nat` counts, and a count string that does not parse is not modelled. The first three mappings are otherwise field renames.
- JavaScript numbers. Page numbers, limits, offsets, page counts and counts are IEEE doubles in the source, exact only below 2^53; the model's integers are unbounded, so rounding of larger values is not modelled.
- `getRoles`, `deleteRole` and `getSessions` in the controllers. They are not among the endpoints modelled.
- The fixed success and failure texts of the analytics endpoints, and their 400 answers.
- AnalyticsController.OverviewPartitions assumes the ten counts are consistent. The code runs them as independent queries, so concurrent writes can break the assumption.
- Concurrency. Interleaved async actions are modelled only as sequences of reducer calls, as in `AnalyticsSlice.SharedLoadingFlag`.
- Rendering, chart.js and the other page components.
- The CORS middleware's origin test, `!origin || includes(origin)`.
- CorsService.OriginsCacheTtl is 540000 ms, as the code says. The comment beside it says 30 seconds; the model follows the number.

## Findings

| source | as written | input that shows it | evidently intended | confidence | as-written member | corrected member |
|---|---|---|---|---|---|---|
| frontend/src/store/slices/sessionsSlice.js:43-50 | the delete action resolves with no payload when `msg` is not the confirmation text; the fulfilled reducer then reads `action.payload.id` inside its filters (lines 126 and 131) and throws whenever the reference list or any cached page is non-empty, so the state is kept and `loadingRowId` stays set | one cached session with id 7, `deleteSession` pending for 7, the server answering 200 with `{msg: "ok"}` | an unconfirmed delete clears the row mark and leaves the cache alone | not executed | SessionsSlice.UnconfirmedDeleteAsWritten | SessionsSlice.UnconfirmedDeleteCorrected |
