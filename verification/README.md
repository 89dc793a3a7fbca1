# Donation-platform client: session, routing, URL and store-cache model

This project models the logic of a single-page client for a donation and
crowdfunding platform, written in Dafny. The client's users browse projects
and events, register, log in, create and edit projects, and administrators
verify users and projects. The model covers these parts:

- **URL resolver** (`backend_url.dfy`): picks the backend origin from two
  build-time settings (an explicit origin, or the API base with a trailing
  `/api/v1` removed, or `http://localhost:8080`) and joins a stored file path
  onto it.
- **Router** (`router.dfy`): the static route table and the `beforeEach`
  guard. The guard redirects to `/login` or `/`, or lets the navigation
  through.
- **Session store** (`auth.dfy`): the in-memory `authData` and its cookie
  copy, changed by login, logout and the rehydration that runs at start-up.
- **Domain stores** (`categories.dfy`, `events.dfy`, `projects.dfy`,
  `users.dfy`): each store's cached record list and its "current" record, the
  payloads it sends, and how each response changes the cache.

Shared modules:

- `js.dfy`: JavaScript values and truthiness.
- `http.dfy`: request outcomes and the errors the stores throw.
- `record_cache.dfy`: the array operations the stores apply to their lists
  (`findIndex`, `find`, assignment at an index, `push`, `filter`, upsert).

Every HTTP request's outcome is a parameter of the operation that issues it:
`Ok(payload)` or `Err(server message if any)`. Where the payload sent matters,
the operation also returns the requests it issued. The cookie jar is a field
of the session store. A page reload is modelled as a new store built from
that cookie.

Notes on how the client behaves:

- The client trims neither a trailing `/` from the origin nor extra leading
  slashes from a relative path, so `RelativePathJoin` states the join exactly
  as `getFileUrl` performs it.
- `getFileUrl` removes nothing from the path. Only the API base loses its
  `/api/v1` suffix.
- In `createProject`, `collectedAmount` is `projectData.collectedAmount || 0`.
  A truthy amount is therefore sent as given, and only a falsy one becomes 0.

## Model

| member | source | states |
|---|---|---|
| `Js.Or` | src/stores/useProjectStore.js:49-52 | the JavaScript "or" of a and d is a when a is truthy and d otherwise |
| `Http.ErrorFor` | src/stores/useCategoryStore.js:51-54 | for an operation that surfaces the server's message, the thrown error carries that message exactly when it is a non-empty string; otherwise it is the operation's fixed message |
| `RecordCache.FindIndex` | src/stores/useCategoryStore.js:65 | the result is -1 exactly when no record has the id; otherwise it is the first position holding that id |
| `RecordCache.FindFirst` | src/stores/useUserStore.js:52 | a record is found exactly when some record has the id, and it is the one at the first matching position |
| `RecordCache.ReplaceFirst` | src/stores/useCategoryStore.js:65-68 | the length is kept; the first record with the id becomes the new record; every other position is untouched; with no match the list is unchanged |
| `RecordCache.Upsert` | src/stores/useUserStore.js:113-118 | with a match it is the replacement above; without one the record is appended at the end |
| `RecordCache.UpsertShape` | src/stores/useUserStore.js:113-118 | an upsert grows the list by at most one, the new record is in it, and every position except the first match keeps its record |
| `RecordCache.RemoveById` | src/stores/useCategoryStore.js:83 | a record is kept exactly when it was in the list and does not carry the id; the list never grows |
| `RecordCache.RemoveByIdAppend` | src/stores/useCategoryStore.js:83 | filtering distributes over concatenation, so the survivors keep their relative order |
| `RecordCache.RemoveByIdIdempotent` | src/stores/useEventStore.js:101 | deleting the same id twice gives the same list as deleting it once |
| `RecordCache.RemoveByIdAbsent` | src/stores/useCategoryStore.js:83 | deleting an id no record carries leaves the list as it was |
| `BackendUrl.FirstMatch` | src/utils/backendUrl.js:15 | a returned index is one from which the pattern `\/api\/v1\/?$` matches and no earlier index (from the start of the scan) matches; no result means no index matches |
| `BackendUrl.ReplaceFirstMatch` | src/utils/backendUrl.js:15 | the non-global `replace` by "": the result is a prefix of the input; when it is shorter, the pattern matches where it ends and nowhere before; when it is the input, the pattern matches nowhere |
| `BackendUrl.StripApiSuffix` | src/utils/backendUrl.js:15 | the result is a prefix of the API base |
| `BackendUrl.StripApiSuffixRemovesOneSuffix` | src/utils/backendUrl.js:12-16 | a base ending in `/api/v1/` or `/api/v1` is the result followed by exactly that suffix; a base ending in neither is returned unchanged |
| `BackendUrl.StripApiSuffixIsRegexReplace` | src/utils/backendUrl.js:15 | the suffix test equals the non-global regular-expression replace of the leftmost end-anchored match by the empty string |
| `BackendUrl.StripRemovesOnlyOneSuffix` | src/utils/backendUrl.js:15 | a base ending in `/api/v1/api/v1` loses only the last copy |
| `BackendUrl.StripKeepsInnerSuffix` | src/utils/backendUrl.js:15 | an `/api/v1` that is not at the very end stays |
| `BackendUrl.GetBackendUrl` | src/utils/backendUrl.js:5-20 | a non-empty explicit origin is returned unchanged; otherwise a non-empty API base gives its regex-stripped prefix; otherwise `http://localhost:8080` |
| `BackendUrl.GetFileUrl` | src/utils/backendUrl.js:27-44 | a missing or empty path gives `""`; a path starting with `http://` or `https://` is returned unchanged whatever the origin |
| `BackendUrl.RelativePathJoin` | src/utils/backendUrl.js:35-43 | a relative path's URL starts with the origin; the rest starts with `/` and is the path itself when the path starts with `/`, else `/` followed by the path |
| `BackendUrl.NonEmptyPathGivesNonEmptyUrl` | src/utils/backendUrl.js:27-44 | a non-empty path never resolves to the empty string |
| `BackendUrl.DevelopmentOriginExample` | src/utils/backendUrl.js:35-43 | with no settings, `avatars/x.jpg` resolves to `http://localhost:8080/avatars/x.jpg` |
| `BackendUrl.ApiBaseOrigin` | src/utils/backendUrl.js:5-20 | with the explicit origin empty and API base `https://api.example.com/api/v1/`, the origin is `https://api.example.com` |
| `BackendUrl.ApiBaseExample` | src/utils/backendUrl.js:35-44 | under those settings `/images/a.png` resolves to `https://api.example.com/images/a.png` (origin followed by the path, no extra `/`) |
| `Auth.LoggedInIffNonEmptyToken` | src/router/index.js:157-160 | `isAuthenticated`, modelled as the predicate `LoggedIn` over `TokenOf` (`authData?.token`): logged in exactly when a session exists and holds a non-empty token; no session, a missing or null token, and `""` all count as logged out |
| `Router.Guard` | src/router/index.js:162-172 | the `beforeEach` decision is one of proceed, redirect to `/login` or redirect to `/`, and it proceeds exactly when the access policy `Admissible` admits the navigation |
| `Router.GuardEnforcesPolicy` | src/router/index.js:162-172 | the guard redirects to `/login` exactly for a protected target when logged out, and to `/` exactly for an unprotected Login or Register target when logged in; it proceeds exactly when the access policy admits the navigation |
| `Router.NoRedirectLoop` | src/router/index.js:162-172 | every redirect target is a route in the table, and the guard lets the follow-up navigation to it through in the same session |
| `Router.LoginRoute` | src/router/index.js:64-69 | `/login` is the unprotected route named Login |
| `Router.HomeRoute` | src/router/index.js:28-33 | `/` is the unprotected route named Home |
| `Router.RouteNamesDistinct` | src/router/index.js:28-153 | route names in the table are pairwise distinct |
| `Router.EveryRouteReachable` | src/router/index.js:28-153 | every route is let through in some session: protected ones when logged in, the others when logged out |
| `Router.RouteAt` | src/router/index.js:28-153 | a route found by path is in the table and has that path |
| `Auth.AuthStore.constructor` | src/stores/useAuthStore.js:44-48 | at start-up the session is the cookie's when a cookie is stored, and none otherwise |
| `Auth.AuthStore.ReadAuthData` | src/stores/useAuthStore.js:44-47 | a stored cookie replaces the session; without one the session is unchanged; the cookie is never changed |
| `Auth.AuthStore.SaveAuthData` | src/stores/useAuthStore.js:34-37 | the session and the cookie both hold the given data |
| `Auth.AuthStore.RemoveAuthData` | src/stores/useAuthStore.js:39-42 | no session and no cookie remain |
| `Auth.AuthStore.Register` | src/stores/useAuthStore.js:10-16 | never changes the session or the cookie; any failure becomes the fixed registration error |
| `Auth.AuthStore.Login` | src/stores/useAuthStore.js:18-25 | on success the session and the cookie both become `{token}`; on failure both are unchanged and the fixed login error is thrown |
| `Auth.AuthStore.Logout` | src/stores/useAuthStore.js:27-32 | whatever the prior state, no session and no cookie remain |
| `Auth.ReloadAfterLogin` | src/stores/useAuthStore.js:18-48 | after a successful login a reloaded store holds `{token}`; after a failed one it holds whatever the cookie already held |
| `Auth.ReloadAfterLogout` | src/stores/useAuthStore.js:27-48 | after logout a reloaded store has no session and is logged out; the session and cookie after a second logout equal those after the first |
| `Auth.ReloadAfterSave` | src/stores/useAuthStore.js:34-48 | rehydrating right after saving data yields that data |
| `Categories.CategoryStore.constructor` | src/stores/useCategoryStore.js:7 | the store starts with an empty category list |
| `Categories.CategoryStore.GetAllCategories` | src/stores/useCategoryStore.js:12-25 | on success the list becomes the payload and is returned; on failure the list is unchanged and the fixed error is thrown |
| `Categories.CategoryStore.GetCategoryById` | src/stores/useCategoryStore.js:27-39 | returns the payload or the fixed error and never changes the store |
| `Categories.CategoryStore.CreateCategory` | src/stores/useCategoryStore.js:41-55 | on success the created record is appended at the end; on failure the list is unchanged and the error surfaces the server's message |
| `Categories.CategoryStore.UpdateCategory` | src/stores/useCategoryStore.js:57-74 | on success only the first record with the id is replaced; on failure nothing changes |
| `Categories.CategoryStore.DeleteCategory` | src/stores/useCategoryStore.js:76-88 | on success the list is filtered by the id; on failure nothing changes |
| `Events.CreateEventPayload` | src/stores/useEventStore.js:45-51 | the create body has exactly title, description, eventDate, location and organizerId, each copied from the form |
| `Events.UpdateEventPayload` | src/stores/useEventStore.js:70-75 | the update body has exactly title, description, eventDate and location, each copied from the form |
| `Events.UpdatePayloadOmitsOrganizer` | src/stores/useEventStore.js:45-75 | the update body is the create body without organizerId |
| `Events.ReplaceCurrent` | src/stores/useEventStore.js:121-123 | the current record is replaced exactly when it exists and has the id |
| `Events.EventStore.constructor` | src/stores/useEventStore.js:7-8 | the store starts with an empty event list and no current event |
| `Events.EventStore.GetAllEvents` | src/stores/useEventStore.js:13-26 | on success the list becomes the payload; `currentEvent` is untouched |
| `Events.EventStore.GetEventById` | src/stores/useEventStore.js:28-41 | on success `currentEvent` becomes the payload; the list is untouched |
| `Events.EventStore.CreateEvent` | src/stores/useEventStore.js:43-66 | sends the create body; on success exactly one record is appended at the end |
| `Events.EventStore.UpdateEvent` | src/stores/useEventStore.js:68-92 | sends the update body; on success only the first record with the id is replaced; every failure throws the fixed message |
| `Events.EventStore.DeleteEvent` | src/stores/useEventStore.js:94-106 | on success every record with the id is filtered out; every failure throws the fixed message |
| `Events.EventStore.Participate` | src/stores/useEventStore.js:108-154 | the shared join/leave body: the first list match is replaced, and `currentEvent` is replaced only when its id matches |
| `Events.EventStore.JoinEvent` | src/stores/useEventStore.js:108-130 | the first list match is replaced, and `currentEvent` only when its id matches; a failure changes nothing |
| `Events.EventStore.LeaveEvent` | src/stores/useEventStore.js:132-154 | the first list match is replaced, and `currentEvent` only when its id matches; a failure changes nothing |
| `Projects.CreateProjectPayload` | src/stores/useProjectStore.js:45-53 | the create body has seven fields; categoryId and targetAmount fall back to null, collectedAmount to 0 and imageIds to `[]` when falsy |
| `Projects.CreatePayloadDefaults` | src/stores/useProjectStore.js:49-52 | the defaulted fields are truthy or exactly their default, and imageIds is always truthy |
| `Projects.UpdateProjectPayload` | src/stores/useProjectStore.js:129-139 | imageIds is the uploaded ids if any, else the form's or `[]`; authorId is present exactly when truthy; collectedAmount is never sent; title and description are copied from the form |
| `Projects.ImageRequests` | src/stores/useProjectStore.js:66-79 | one upload request per file, in file order |
| `Projects.UploadedIds` | src/stores/useProjectStore.js:78 | one id per uploaded file, in file order: the i-th id is the one the server returned for the i-th file |
| `Projects.UploadImages` | src/stores/useProjectStore.js:114-127 | succeeds exactly when every upload succeeds, and then yields each file's id in file order; otherwise it stops at the first failed upload and returns its message |
| `Projects.ProjectStore.constructor` | src/stores/useProjectStore.js:7-8 | the store starts with an empty project list and no current project |
| `Projects.ProjectStore.GetAllProjects` | src/stores/useProjectStore.js:13-26 | on success the list becomes the payload; `currentProject` is untouched |
| `Projects.ProjectStore.GetProjectById` | src/stores/useProjectStore.js:28-41 | on success `currentProject` becomes the payload; the list is untouched |
| `Projects.ProjectStore.CreateProject` | src/stores/useProjectStore.js:43-108 | without files the created project is appended once; with files one upload per file follows, then a PUT with the create body's imageIds replaced by the collected ids, and the list only has the first entry with the new id replaced, never appended; any failure leaves the list unchanged |
| `Projects.ProjectStore.UpdateProject` | src/stores/useProjectStore.js:110-156 | uploads every file, then sends the update body with the collected ids; on success only the first match is replaced; every failure throws the fixed message and changes nothing |
| `Projects.ProjectStore.DeleteProject` | src/stores/useProjectStore.js:158-169 | changes neither the list nor `currentProject`, on success or failure |
| `Projects.ProjectStore.VerifyProject` | src/stores/useProjectStore.js:171-193 | the first list match is replaced, and `currentProject` only when its id matches; a failure changes nothing |
| `Users.IncludedEntriesFields` | src/stores/useUserStore.js:67-84 | a listed field is in the form exactly when it is included, and each entry carries the caller's value |
| `Users.UpdateUserForm` | src/stores/useUserStore.js:65-84 | the form holds at most the six listed fields, and every entry is a listed field that is included, with the caller's value |
| `Users.UpdateUserFormFields` | src/stores/useUserStore.js:67-84 | the six conditional appends send a field exactly when it is neither undefined nor null (and, for the password, not `""`), with the caller's value, in the fixed order |
| `Users.EmptyPasswordNotSent` | src/stores/useUserStore.js:73-75 | an empty password is never sent |
| `Users.UserStore.constructor` | src/stores/useUserStore.js:7-8 | the store starts with an empty user list and no current user |
| `Users.UserStore.GetAllUsers` | src/stores/useUserStore.js:14-27 | on success the list becomes the payload; `currentUser` is untouched |
| `Users.UserStore.GetCurrentUser` | src/stores/useUserStore.js:29-47 | without a token, or on a failed request, `currentUser` becomes null and null is returned instead of throwing; otherwise both are the payload |
| `Users.UserStore.GetUserById` | src/stores/useUserStore.js:49-61 | reloads the list, then returns the first user with the id; a missing user and a failed load throw the same fixed error |
| `Users.UserStore.UpdateUser` | src/stores/useUserStore.js:63-102 | sends the conditional form; `currentUser` is replaced only when its id matches; the list is never changed |
| `Users.UserStore.VerifyUser` | src/stores/useUserStore.js:104-129 | upserts the verified record into the list, and replaces `currentUser` exactly when its id matches; a failure changes nothing |

## Left out

- The HTTP transport (axios, the `src/api/index.js` instance, headers, the
  `Authorization: Bearer` header, FormData and multipart encoding). Each
  request's outcome is a parameter. Request bodies that the client passes
  through verbatim (category data, credentials, the join/leave/verify empty
  bodies) are not modelled.
- `uploadImage` (src/stores/useProjectStore.js:195-208): it returns the
  server's payload and touches no state, so there is nothing to model beyond
  the request.
- `src/stores/useDonationStore.js` is not part of this model. Its wrappers
  return server fields verbatim and never write the `donations` list.
- The cookie's attributes (path, secure, SameSite). The model keeps only
  "cookie present with a value" versus "absent".
- Pinia and Vue reactivity, and the asynchronous interleaving between
  `await` points. Each operation is atomic in the model.
- Vue Router internals: history mode, component loading, and path matching
  with parameters. `Router.RouteAt` matches a path literally, which is
  enough for the two redirect targets, neither of which has a parameter.
- `console.error` logging, and the localised error texts. An error is either
  the server's message or the operation's fixed message.
- JSON serialisation, which drops `undefined` properties. FormData's
  conversion of values to strings. Floating-point amounts are modelled as
  reals, and NaN is not modelled.
- Records without an `id`. Ids are numbers or strings, and `===` between
  them is datatype equality, so a string id never matches a numeric one.
- A login response without a `data` object throws inside the `try`. The
  model folds it into `Err`.
