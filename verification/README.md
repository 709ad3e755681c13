# Dashcraft core, modelled in Dafny

Dashcraft is a Next.js admin dashboard. Most of it is presentation; this project
models the small amount of sequential logic underneath it:

- **Record filters** (user roster and activity timeline): a case-insensitive substring
  search over two string fields, AND a category filter where `"all"` passes everything
  and any other value requires exact equality. Modelled once as a generic stable
  filter (`Seqs`, `FilterEngine`) and instantiated for users (name/email, status) and
  activities (description/user, type).
- **Login gate** (`Login`): the exact check against the built-in pair `admin` /
  `password123`, the two local-store writes on success, the fixed error on failure,
  the busy flag, the submit-enable rule, the Enter key, and the mount-time redirect.
- **Fail-fast join** (`Api`): each read re-raises request failures, turns a non-success
  status into an error with a fixed message and otherwise yields the parsed body; the
  `Promise.all` join pairs both payloads unchanged or fails as a whole.
- **Dashboard screen** (`Dashboard`): the loading → error | loaded state machine, the
  render order (spinner, error panel, nothing, dashboard), the unread count and badge,
  the 3-entry and 5-entry excerpts, the mark-all button's visibility and the severity
  colour and activity icon mappings.

Layout: `wrappers.dfy` (Option, Result), `seqs.dfy` (subsequences, stable filter,
prefix), `text.dfy` (ASCII lower-casing, `includes`), `filter_engine.dfy` (query and
generic filter), `users.dfy`, `activities.dfy`, `login.dfy`, `api.dfy`, `dashboard.dfy`.

Inputs that the source takes from the environment are parameters: the outcome of each
`fetch` (rejection, status flag, outcome of parsing the body), which read rejects first
when both fail, the login time (`new Date().toISOString()`), and the key pressed.

Behaviour of the code worth noting, which the model follows as written:

- The mount-time check looks only at `isAuthenticated === 'true'`, not at the presence of
  a session record, and only the login screen performs it; the dashboard screens do not.
- The time-window selector of the activity timeline and the "Mark all as read" button
  have no effect in the code, so the model gives them none.
- The activity's `user` field is treated as always present: the filter calls
  `toLowerCase` on it unconditionally.
- The dashboard screen tests `if (error)`, which is false for an empty message; an
  `Error` with an empty message therefore renders nothing rather than the error panel
  (`Dashboard.MountFailureShowsError`).
- `src/app/dashboard/page.tsx:40-81` repeats the three read functions of
  `src/app/lib/api.ts` with another base URL; they are modelled once, in `Api`.

## Model

| member | source | states |
|---|---|---|
| Seqs.Filter | src/app/dashboard/users/page.tsx:76-81 | The stable filter returns an order-preserving subsequence of its input, no longer than it, whose elements all pass the predicate, and contains every input element that passes it. |
| Seqs.FilterMaximal | src/app/dashboard/users/page.tsx:76-81 | Every subsequence of the input made of passing elements is a subsequence of the filter's result. |
| Seqs.FilterUnique | src/app/dashboard/users/page.tsx:76-81 | The filter's result is the unique longest order-preserving subsequence of passing elements. |
| Seqs.FilterIdempotent | src/app/dashboard/activities/page.tsx:130-135 | Filtering a filtered sequence with the same predicate changes nothing. |
| Seqs.FilterConjunction | src/app/dashboard/users/page.tsx:80 | Filtering by a conjunction equals filtering by one conjunct and then by the other. |
| Seqs.FilterKeepsAll | src/app/dashboard/users/page.tsx:77-79 | A predicate every element passes returns the input unchanged. |
| Seqs.FilterAppend | src/app/dashboard/page.tsx:204 | The filter of a concatenation is the concatenation of the filters. |
| Seqs.FilterLength | src/app/dashboard/page.tsx:204 | The length of a filter's result is the number of positions whose element passes. |
| Seqs.FilterEmpty | src/app/dashboard/page.tsx:204 | The filter is empty exactly when no element passes. |
| Seqs.FilterPartition | src/app/dashboard/users/page.tsx:79 | A predicate and its negation split the sequence: their result lengths add up to its length. |
| Seqs.Take | src/app/dashboard/page.tsx:345 | `slice(0, n)` yields the first min(n, length) elements, in order. |
| Text.LowerChar | src/app/dashboard/users/page.tsx:77 | Lower-casing one character maps 'A'..'Z' to 'a'..'z' and leaves every other character alone; no upper-case letter remains. |
| Text.Lower | src/app/dashboard/users/page.tsx:77 | `toLowerCase` keeps the length and lower-cases every character in place. |
| Text.Includes | src/app/dashboard/users/page.tsx:77-78 | `includes` is true exactly when the needle occurs at some position of the haystack. |
| Text.IncludesEmpty | src/app/dashboard/users/page.tsx:77-78 | The empty search term is included in every string. |
| FilterEngine.Apply | src/app/dashboard/activities/page.tsx:130-135 | The filtered records are an order-preserving subsequence, never more than the input, and a record is kept iff the lower-cased term occurs in one of its two lower-cased fields and its category passes ("all", or exact equality). |
| FilterEngine.EmptyTermMatches | src/app/dashboard/activities/page.tsx:131-132 | The empty search term matches every record. |
| FilterEngine.CategoryOnly | src/app/dashboard/activities/page.tsx:133 | With the empty term, a query keeps a record exactly when its category passes. |
| FilterEngine.SearchIgnoresTermCase | src/app/dashboard/activities/page.tsx:131-132 | Lower-casing the term first does not change whether a record matches. |
| FilterEngine.ApplyNeutral | src/app/dashboard/activities/page.tsx:130-135 | The empty term with "all" returns every record unchanged, in order. |
| FilterEngine.ApplyIdempotent | src/app/dashboard/activities/page.tsx:130-135 | Applying a query to its own result changes nothing. |
| FilterEngine.ApplySplits | src/app/dashboard/activities/page.tsx:134 | A query's result equals the search-only result narrowed by the category-only query. |
| FilterEngine.ApplyCommutes | src/app/dashboard/activities/page.tsx:134 | The category-only query may equally be applied before the search-only one. |
| FilterEngine.ApplyNoMatch | src/app/dashboard/activities/page.tsx:131-132 | A term that no record's fields contain yields the empty result. |
| FilterEngine.ApplyIsLongestMatch | src/app/dashboard/activities/page.tsx:130-135 | The result is the unique longest order-preserving subsequence of records that pass the query. |
| Users.FilterUsers | src/app/dashboard/users/page.tsx:76-81 | The shown users are an order-preserving subsequence of the roster, never more than it; a user is shown iff the term matches name or e-mail case-insensitively and the status check passes; with a filter other than "all" every shown user's status equals it; the number shown equals the number of roster positions that pass, so duplicates are kept. |
| Users.ShowAll | src/app/dashboard/users/page.tsx:77-79 | The empty term with "all" shows every user unchanged. |
| Users.FilterUsersIdempotent | src/app/dashboard/users/page.tsx:80 | Filtering the shown users again with the same settings changes nothing. |
| Users.FilterUsersSplits | src/app/dashboard/users/page.tsx:80 | The shown users are the search-only result narrowed by the status-only filter. |
| Users.StatusFiltersPartition | src/app/dashboard/users/page.tsx:154 | Of the three filter buttons, "active" and "inactive" split between them the users "all" shows, when every status is one of the two. |
| Users.SampleInactive | src/app/dashboard/users/page.tsx:11-67 | On the screen's roster, the "inactive" filter shows Mike Johnson alone. |
| Activities.FilterActivities | src/app/dashboard/activities/page.tsx:130-135 | The shown activities are an order-preserving subsequence, never more than the timeline; an activity is shown iff the term matches description or user case-insensitively and the type check passes; with a filter other than "all" every shown activity's type equals it; the number shown equals the number of timeline positions that pass, so duplicates are kept. |
| Activities.ShowAll | src/app/dashboard/activities/page.tsx:130-135 | The empty term with "all" shows every activity unchanged. |
| Activities.FilterActivitiesIdempotent | src/app/dashboard/activities/page.tsx:130-135 | Filtering twice with the same settings equals filtering once. |
| Activities.AllTypesIsSearchOnly | src/app/dashboard/activities/page.tsx:133 | With "all", an activity is shown iff the search matches it: no type restriction. |
| Activities.TypeFilterCaseSensitive | src/app/dashboard/activities/page.tsx:133 | The type filter is case-sensitive: "transaction" hides every "Transaction" activity. |
| Activities.TypeButtons | src/app/dashboard/activities/page.tsx:137 | The first type button is "all"; every other button shows only activities of exactly its own type. |
| Activities.JohnFindsAct1 | src/app/dashboard/activities/page.tsx:130-132 | The term "john" keeps act1, whose user is "JohnDoe", because matching ignores case. |
| Login.Verify | src/app/Login/page.tsx:34-35 | The credentials pass iff the username is exactly "admin" and the password exactly "password123". |
| Login.RedirectOnMount | src/app/Login/page.tsx:20-25 | The mount-time check redirects iff the store holds the text "true" under isAuthenticated; with no such key it never redirects. |
| Login.CanSubmit | src/app/Login/page.tsx:138 | The button is disabled while busy, and otherwise enabled iff both inputs are non-empty. |
| Login.InitialFormCannotSubmit | src/app/Login/page.tsx:6-11 | The screen opens with empty inputs and no error, so the button starts disabled. |
| Login.Edit | src/app/Login/page.tsx:54-59 | Typing into an input replaces that input's value only; error and busy flag are untouched. |
| Login.FinishAttempt | src/app/Login/page.tsx:34-50 | After the delay, the attempt redirects iff the credentials pass; on success the store maps isAuthenticated to "true" and user to the session record of the typed username and the login time, every other key unchanged; a failure leaves the store untouched and shows the fixed error; either way the busy flag ends false and both inputs are kept. |
| Login.BeginAttempt | src/app/Login/page.tsx:28-29 | Every attempt starts by clearing the error and setting the busy flag, which disables the button. |
| Login.HandleLogin | src/app/Login/page.tsx:27-51 | The attempt redirects iff the username is "admin" and the password "password123" exactly; on success the store maps isAuthenticated to "true" and user to a record with the submitted username and the login time, every other key unchanged, with no error; on failure the store is unchanged and the error is "Invalid username or password"; the busy flag ends false and the inputs are kept. |
| Login.KeyPress | src/app/Login/page.tsx:61-65 | On a form that is not busy (the inputs are disabled otherwise), Enter starts an attempt and any other key changes nothing. |
| Login.LoginThenMountRedirects | src/app/Login/page.tsx:20-25 | After a successful login, the mount-time check redirects, whatever the store held before. |
| Login.FailedLoginKeepsMountDecision | src/app/Login/page.tsx:46-47 | A failed login leaves the mount-time decision as it was; from an empty store it does not redirect. |
| Login.SubmitAfterAttempt | src/app/Login/page.tsx:138 | After an attempt the button is enabled iff both inputs are non-empty. |
| Login.EnterWithEmptyUsername | src/app/Login/page.tsx:61-65 | Enter starts an attempt even when the button is disabled by an empty username; it fails with the credential error. |
| Login.RetryClearsError | src/app/Login/page.tsx:28 | A successful retry after a failure shows no error and redirects. |
| Api.Read | src/app/lib/api.ts:34-45 | A read succeeds iff the request resolves, the status is ok and the body parses, and then yields the parsed body; a rejection is re-raised unchanged, a non-ok status raises an Error with the read's fixed message, a parse error is re-raised. |
| Api.Join | src/app/lib/api.ts:62-70 | The join succeeds iff both reads succeed, and then pairs the summary and the notifications unchanged; otherwise it fails with an error one of the failed reads raised, and with the single failure when only one fails. |
| Api.FetchAnalyticsSummary | src/app/lib/api.ts:34-45 | The summary read succeeds iff the request resolves ok and the body parses, yielding the body; a non-ok status raises "Failed to fetch analytics summary"; a rejection and a parse error are each re-raised unchanged. |
| Api.FetchNotifications | src/app/lib/api.ts:47-58 | The notifications read succeeds iff the request resolves ok and the body parses, yielding the body; a non-ok status raises "Failed to fetch notifications"; a rejection and a parse error are each re-raised unchanged. |
| Api.FetchDashboardData | src/app/lib/api.ts:60-75 | The dashboard read succeeds iff both requests resolve ok with parsable bodies, and then holds both bodies unchanged; otherwise it fails with the error one of the two reads raised, never with partial data. |
| Api.JoinOrderIrrelevantUnlessBothFail | src/app/lib/api.ts:62-65 | Which read rejects first matters only when both fail. |
| Api.BothFailuresReachable | src/app/lib/api.ts:62-65 | When both reads fail, either error can be the one reported. |
| Api.FetchDashboardDataSucceeds | src/app/lib/api.ts:60-70 | The dashboard read succeeds iff both requests resolve with an ok status and parsable bodies, and then carries both bodies unchanged. |
| Api.FetchDashboardDataErrorProvenance | src/app/lib/api.ts:41-44 | A failed dashboard read reports an error one of the reads raised: a rejection, a fixed status message, or a parse error; nothing is swallowed. |
| Dashboard.LoadData | src/app/dashboard/page.tsx:92-103 | After loading, the busy flag is false either way; success stores the data and keeps the error; failure keeps the data and stores the Error's message, or "Failed to load data" for another rejection. |
| Dashboard.UnreadCount | src/app/dashboard/page.tsx:204 | The unread count is at most the number of notifications, 0 for none, and 0 iff every notification is read. |
| Dashboard.UnreadCountIsCardinality | src/app/dashboard/page.tsx:204 | The unread count equals the number of notifications whose read flag is false. |
| Dashboard.BadgeIffUnread | src/app/dashboard/page.tsx:233 | The badge is shown iff some notification is unread. |
| Dashboard.SeverityColour | src/app/dashboard/page.tsx:121-127 | "high" alone gives red, "info" alone gives blue, everything else gives gray. |
| Dashboard.LowIsGray | src/app/dashboard/page.tsx:121-127 | The declared severity "low" shares gray with unknown severities. |
| Dashboard.ActivityIcon | src/app/dashboard/page.tsx:112-119 | "New User", "Transaction" and "Login" each have their own icon; every other type shares the default. |
| Dashboard.UpdateHasDefaultIcon | src/app/dashboard/page.tsx:112-119 | The type "Update" has no icon of its own on the dashboard. |
| Dashboard.ErrorMessage | src/app/dashboard/page.tsx:99 | The kept message is the Error's own message, or "Failed to load data" for a rejection that is not an Error. |
| Dashboard.NotificationPanel | src/app/dashboard/page.tsx:424-471 | The panel shows the empty-state message iff there are no notifications, otherwise the first min(5, n) notifications in order, and the mark-all button iff there is at least one. |
| Dashboard.View | src/app/dashboard/page.tsx:203-404 | The dashboard shows the widget title, the unread count of the data's notifications with a badge iff it is positive, the first min(3, n) recent activities in order, and, iff it is open, the side panel for the data's notifications. |
| Dashboard.Render | src/app/dashboard/page.tsx:146-201 | The spinner shows iff loading; otherwise the error panel iff the error message is non-empty; otherwise the dashboard iff data is present, and nothing when it is absent. |
| Dashboard.SetPanel | src/app/dashboard/page.tsx:229 | Opening or closing the side panel changes only the panel switch. |
| Dashboard.MountShowsSpinner | src/app/dashboard/page.tsx:84-85 | The screen starts with the spinner. |
| Dashboard.MountSuccessShowsData | src/app/dashboard/page.tsx:92-106 | A successful read on mount shows the dashboard for exactly the data read. |
| Dashboard.MountFailureShowsError | src/app/dashboard/page.tsx:98-99 | A failed read on mount leaves no data and shows the error panel with the rejection's message or the fallback; an empty message renders nothing. |
| Dashboard.MountShowsDashboardIffBothReadsSucceed | src/app/dashboard/page.tsx:66-106 | After mounting, the dashboard is shown iff both reads succeed; any failure leaves no data. |

## Left out

- Rendering, styling, animations, icons' artwork and router navigation: presentation only; the model keeps only which branch renders and what data it shows.
- HTTP, JSON parsing and `console.error`: I/O; each read is given by its outcome as a parameter.
- JSON encoding of the `user` store entry: the store keeps the session record that the JSON text encodes.
- The one-second login delay and the 100 ms animation delay: timing only; an attempt is modelled as its two halves, before and after the delay.
- Interleaving inside `Promise.all`: only the join's outcome is modelled, with the first rejection as a parameter.
- Dashboard.LoadData: every read is assumed to settle. The code sets no time-out, so a request that never settles would leave the spinner up for good; and the join is modelled on settled outcomes, so it does not show `Promise.all` rejecting while the other read is still pending.
- Api.Read: a body that parses is assumed to have the declared type. The code does no shape check, so well-formed JSON of another shape would count as a success here and fail only later, while the dashboard renders.
- Login.HandleLogin: both local-store writes are assumed to succeed. In the code a write that throws (storage full or disabled) would skip the redirect and leave the form busy; if only the second write threw, the flag would be stored without the user record.
- Text.Lower: models ASCII lower-casing only, because full Unicode case mapping is not part of this model; non-ASCII letters are left unchanged.
- Date and number formatting (`toLocaleString`, `toLocaleDateString`, `toLocaleTimeString`, `Intl.NumberFormat`): locale-dependent presentation.
- The activity time-window selector and the "Mark all as read" button: the code accepts them but applies no effect, so there is no behaviour to model.
- The status, plan, activity-colour and importance-colour mappings of the roster and timeline screens: presentation only.
- `src/app/dashboard/revenue/page.tsx`: static figures and a currency formatter, no logic.
- The sample statistics constants of the roster screen: static display values.
