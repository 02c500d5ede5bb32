# CorpBuddy access gate and dashboard lists, in Dafny

This project models the decision logic inside the CorpBuddy Next.js dashboard:

- **Middleware** (`middleware.dfy`). This is the edge middleware that runs before every matched page. It takes whether a session token is present and the request pathname. It answers with one of three results: forward the request, redirect to `/dashboard`, or redirect to `/auth/signin`. A sign-in redirect may carry a `callbackUrl` holding the original pathname. The rules apply in source order and the first match wins. The protected-path and auth-path tests are raw `startsWith` tests. The route matcher is modelled as a separate predicate, and `Gate` combines the two.
- **ActionPanel** (`action_panel.dfy`). This is the recommended-action queue. Its state is a list of pending actions and a list of decided ones. Approve and reject take the first pending action with the given id and prepend a copy with the new status to the history. They also drop every pending action with that id. `Run` replays a sequence of button clicks.
- **NotificationCenter** (`notification_center.dfy`). This is the notification list. Mark-as-read is a map, dismiss is a filter, and the unread count is the length of a filter.
- **AuthError** (`auth_error.dfy`). This is the auth error page's mapping from the optional `error` query parameter to one of four fixed messages. A closed `ErrorKind` enumeration serves as its reference.
- **Wrappers** (`wrappers.dfy`). This holds `Option`, which stands for JavaScript's `null`/`undefined`.

Each operation is paired with an independent statement of what it means:

- `Decide` is paired with a per-class policy table (`Classify`/`Policy`) and with the no-loop property.
- The filters are paired with membership, count and concatenation laws.
- `UnreadCount` is paired with a set of unread positions.
- `ErrorMessage` is paired with the enumeration of error kinds.

A segment-granular reading of the protected roots would leave `/dashboardx` unprotected. The code's raw `startsWith` protects it, and this model follows the code. `RawPrefixIsNotSegmentGranular` exhibits the difference. `MatchedPathsClassifyBySegment` shows that the two readings agree on every path the route matcher lets through.

## Model

| member | source | states |
|---|---|---|
| Middleware.Decide | middleware.ts:4-37 | Every redirect goes to `/dashboard` when a token is present and to `/auth/signin` when it is not. A `callbackUrl` appears only on an unauthenticated, non-root, protected path, and it equals that path. Without a token only the root and protected paths are redirected. With a token only the root and `/auth` paths are redirected. |
| Middleware.ProtectedPathsAreDashboardAndSettings | middleware.ts:8-13 | A path is protected exactly when `/dashboard` or `/settings` is a raw character prefix of it. |
| Middleware.ProtectedIsNotAuth | middleware.ts:8-34 | No protected path starts with `/auth`, and the root is not protected. So the protected rule and the auth rule never compete. |
| Middleware.DecideFollowsPolicy | middleware.ts:15-36 | On every path and token state, the ordered rules give the same decision as the per-class policy table (root, protected, auth-flow, public). |
| Middleware.RootRedirects | middleware.ts:15-22 | `/` with a token redirects to `/dashboard`. Without a token it redirects to `/auth/signin` with no callback. |
| Middleware.ProtectedWithoutTokenRedirectsWithCallback | middleware.ts:24-29 | A path starting with `/dashboard` or `/settings`, without a token, redirects to `/auth/signin` with `callbackUrl` equal to the path. |
| Middleware.ProtectedWithTokenPasses | middleware.ts:24-36 | A path starting with `/dashboard` or `/settings`, with a token, is forwarded. |
| Middleware.AuthWithTokenRedirectsToDashboard | middleware.ts:31-34 | A path starting with `/auth`, with a token, redirects to `/dashboard` without a callback. |
| Middleware.AuthWithoutTokenPasses | middleware.ts:24-36 | A path starting with `/auth`, without a token, is forwarded. |
| Middleware.NoRedirectLoop | middleware.ts:15-36 | Following any redirect with the same token state reaches a forwarded page. This holds both for the bare rules and behind the matcher. |
| Middleware.Gate | middleware.ts:39-46 | Paths outside the matcher set are forwarded untouched. On every matched path the gate's decision is the per-class policy applied to segment-granular classes (root, `/dashboard` or `/settings` segment, `/auth` segment, other). Only matched paths are ever redirected, and only to `/dashboard` or `/auth/signin`. |
| Middleware.MatchedPathsFollowSegmentPolicy | middleware.ts:8-46 | On every path the matcher admits, the middleware's ordered raw-prefix rules give the same decision as the per-class policy over segment-granular classes. |
| Middleware.RawPrefixIsNotSegmentGranular | middleware.ts:10-13 | `/dashboardx` counts as protected by the raw prefix test and is sent to sign-in with a callback. The matcher does not admit it, so the whole gate forwards it. |
| Middleware.MatchedPathsClassifyBySegment | middleware.ts:39-46 | On every matcher-admitted path, the raw protected test agrees with segment-granular matching of `/dashboard` and `/settings`. |
| Middleware.SettingsBillingExample | middleware.ts:24-29 | `/settings/billing` without a token redirects to `/auth/signin` with callback `/settings/billing`. |
| ActionPanel.Find | components/action-panel.tsx:43 | The result is absent exactly when no entry has the id. Otherwise it is the first entry with the id. |
| ActionPanel.WithoutId | components/action-panel.tsx:47 | The result holds exactly the entries whose id differs. Its length drops by the number of entries with the id. An absent id leaves the list unchanged. |
| ActionPanel.WithoutIdDistributes | components/action-panel.tsx:47 | Filtering distributes over concatenation, so the kept entries stay in their original relative order. |
| ActionPanel.WithoutIdKeepsUniqueIds | components/action-panel.tsx:47 | Filtering a list with unique ids leaves unique ids. |
| ActionPanel.Resolve | components/action-panel.tsx:42-58 | An id absent from pending changes nothing. If present, the history grows by one. The new head is the first pending entry with the id, carrying the new status, and the old history follows unchanged. No pending entry keeps the id. Well-formedness is preserved. With unique pending ids, uniqueness and the total entry count are both preserved. |
| ActionPanel.Approve | components/action-panel.tsx:42-49 | Approving is resolving with status `approved`. When the id is pending, the new history head has that id and status `approved`. |
| ActionPanel.Reject | components/action-panel.tsx:51-58 | Rejecting is resolving with status `rejected`. When the id is pending, the new history head has that id and status `rejected`. |
| ActionPanel.RunPreservesInvariants | components/action-panel.tsx:42-58 | Any sequence of approve/reject clicks preserves well-formedness, unique pending ids and the total number of entries. |
| ActionPanel.ReachableFromInitial | components/action-panel.tsx:18-58 | From the initial two actions, after any clicks: every pending entry is `pending`, every history entry is `approved` or `rejected`, and there are exactly two entries in all. |
| NotificationCenter.MarkAsRead | components/notification-center.tsx:57-61 | Length and order are kept. Every field except `read` is kept. An entry is read afterwards exactly when it was read before or has the id. |
| NotificationCenter.Dismiss | components/notification-center.tsx:63-65 | The result holds exactly the entries whose id differs. Its length drops by the number of entries with the id. An absent id leaves the list unchanged. |
| NotificationCenter.DismissDistributes | components/notification-center.tsx:64 | Dismissing distributes over concatenation, so the remaining notifications keep their relative order. |
| NotificationCenter.Unread | components/notification-center.tsx:67 | The result holds exactly the unread notifications and is no longer than the list. |
| NotificationCenter.UnreadCount | components/notification-center.tsx:67 | The count is at most the list length. It is zero exactly when every notification is read. |
| NotificationCenter.UnreadCountCountsUnreadEntries | components/notification-center.tsx:67 | The unread count equals the number of positions holding an unread notification. |
| NotificationCenter.MarkAsReadIdempotent | components/notification-center.tsx:59 | Marking the same id read twice gives the same list as marking it once. |
| NotificationCenter.MarkAsReadUnreadCount | components/notification-center.tsx:57-67 | Marking an id read lowers the unread count by exactly the number of unread entries with that id, and never raises it. |
| NotificationCenter.DismissAfterMarkAsRead | components/notification-center.tsx:57-65 | Dismissing an id after marking it read equals dismissing it alone. |
| NotificationCenter.NoneReadAllUnread | components/notification-center.tsx:67 | When no notification is read, the unread count equals the list length. |
| NotificationCenter.InitialAllUnread | components/notification-center.tsx:19-52 | All four starting notifications are unread. |
| AuthError.ErrorMessage | app/auth/error/page.tsx:11-21 | The result is always one of the four messages. `Configuration`, `AccessDenied` and `Verification` each give their own message, and only they do. Every other value, including an absent parameter, gives the unknown-error message. |
| AuthError.Parse | app/auth/error/page.tsx:15-21 | A recognised kind is one whose code equals the input. Unknown is returned exactly when no kind's code matches. |
| AuthError.ErrorMessageByKind | app/auth/error/page.tsx:13-21 | The page's message is the message of the parsed kind. Distinct kinds give distinct messages. |
| AuthError.CodeRoundTrip | app/auth/error/page.tsx:15-20 | Each kind's code parses back to that kind and shows that kind's message. |
| AuthError.CaseSensitive | app/auth/error/page.tsx:11-21 | Lower-case spellings, the empty string and an absent parameter all give the unknown-error message. |

## Left out

- Token verification is left out. `getToken` (middleware.ts:5) is a next-auth library call, so the model takes only a boolean saying whether it returned a token. The expired-token case is the same as the absent-token case by construction.
- URL construction is left out. So are `searchParams` encoding and `req.url`. A redirect is a structured target plus an optional callback.
- Next.js path-to-regexp semantics are left out. `MatcherAccepts` is an assumed reading of `config.matcher`: a path matches when it equals a pattern's base or extends it with `/`.
- The two setter calls in `approveAction`/`rejectAction` are modelled as one atomic transition. React's `useState` batching and stale closures are left out.
- The panel's `showHistory` toggle is left out because it only chooses what to render. So is every mapping from impact or priority to a visual variant.
- app/page.tsx and app/dashboard/page.tsx are not part of this model. Their server-side session checks are secondary, and the dashboard check redirects without a `callbackUrl`.
- app/integrations/plaid/page.tsx and the two mock routes under app/api/plaid are not part of this model. They are network calls, SDK callbacks and canned JSON responses.
- The rendering-only components are not part of this model: the sidebar, the dashboard header, the sign-in button and the sign-out page.
