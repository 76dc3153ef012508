# BookRuang client core, modelled in Dafny

BookRuang is a React client for booking campus rooms. This project models
its logic core, leaving out the markup:

- **The loan-list filter.** The list is cut by a status, a room search string
  and a borrower search string. The dashboard applies the borrower pass for
  administrators only; the older single-page view applies it always.
- **The loan views' handlers as state machines with a request log.** The
  handlers are submit, edit, delete, approve, reject, the dialogs and the
  filters. Two classes cover them:
  - `DashboardComponent.Dashboard` for the authenticated dashboard.
  - `LegacyApp.App` for the older view. It sends no Authorization header
    and never looks at a reply's status.

  Every reply a handler would await, and every `window.confirm` answer, is a
  parameter. Ghost fields record each request issued, each alert shown and
  each redirect to the login page.
- **Which buttons a loan row offers.** Pure functions: `Visibility`.
- **The session slot and the route guard.** The stored user (`localStorage['user']`)
  is the field of `Auth.Session`. `login` fills it when the reply has a
  token and `logout` empties it. `Routing.Guard` is `PrivateRoute`'s
  decision to redirect or render.
- **The registration form.** A class: `RegisterComponent.Register`. It holds
  the ordered checks, the `error` line and the `loading` flag around the call.

Supporting modules:

- `Text`: ASCII lower-casing, substring search, ECMAScript `trim`, `slice`, and
  the order used to compare times.
- `Loans`: the loan record, the replies, the request log entries, submit
  validation and the edit copy.
- `LoanFilter`: the filter effect.
- `LoanViewState`: a view's state as one value, and what a refetch does to it.

What the model assumes about time values and ids:

- **Times.** Times are the strings a `datetime-local` input produces
  (`YYYY-MM-DDTHH:MM`). In a time zone without daylight-saving gaps,
  comparing `new Date(...)` values is the same as comparing the strings
  lexicographically, and that is how the model compares them
  (`Text.LexLess`). Where a local time is skipped by a daylight-saving
  change, `new Date` moves it forward (02:30 becomes 03:30 on the day
  clocks go forward), so a start of 02:30 and an end of 03:15 is refused
  by the code and accepted by the model.
- **Ids.** An optional numeric id is `Option<int>`. It is truthy when it is
  present and not 0.
- **Optional strings.** An optional string is truthy when it is present and
  not empty.

## Model

| member | source | states |
|---|---|---|
| Text.Lower | bookruang-frontend/src/components/Dashboard.tsx:80-82 | `toLowerCase` keeps the length, turns each ASCII capital letter into its small letter (+32) and leaves every other character as it is; no capital letter remains |
| Text.ContainsIffOccurs | bookruang-frontend/src/components/Dashboard.tsx:81-82 | `includes` holds exactly when the needle occurs at some index of the string |
| Text.BlankIffAllSpace | bookruang-frontend/src/components/Dashboard.tsx:133 | `s.trim()` is empty exactly when every character of `s` is ECMAScript white space or a line terminator |
| Text.Take | bookruang-frontend/src/components/Dashboard.tsx:120 | `slice(0, n)` is the prefix of exactly `min(n, length)` characters, so the first `n` characters of a longer string and the whole of a shorter one |
| Text.LexLessAsymmetric | bookruang-frontend/src/components/Dashboard.tsx:94 | the time order is strict: never both `a < b` and `b < a`, and never `a < a` (so equal times count as inverted) |
| Loans.OrElse | bookruang-frontend/src/components/Dashboard.tsx:104 | `a \|\| fallback` is one of its two operands, is `a` whenever `a` is set, and is empty only when both are |
| Loans.SubmitError | bookruang-frontend/src/components/Dashboard.tsx:93-96 | a submit is refused exactly when a required field is empty or both times are set with start ≥ end; the missing-field message takes precedence over the time message |
| Loans.EndBeforeStartRefused | bookruang-frontend/src/components/Dashboard.tsx:94-95 | a start of 10:00 and an end of 09:00 on the same day is refused with "Waktu selesai harus lebih besar dari waktu mulai!" |
| Loans.LexLessAtFirstDifference | bookruang-frontend/src/components/Dashboard.tsx:94 | two times that agree up to a position and differ there are ordered by their characters at that position |
| Loans.SwappedTimesRefused | bookruang-frontend/src/components/Dashboard.tsx:94-95 | equal start and end times are refused, and when the start precedes the end the form with the two times swapped is refused |
| Loans.WithField | bookruang-frontend/src/components/Dashboard.tsx:271-277 | typing into an input never changes the form's id |
| Loans.TimePrefix | bookruang-frontend/src/components/Dashboard.tsx:120 | `t?.slice(0, 16) \|\| ""` is "" for a missing time, and otherwise the prefix of exactly 16 characters, or the whole time when it is shorter |
| Loans.EditForm | bookruang-frontend/src/components/Dashboard.tsx:120 | the edit form is the loan with only its start and end times replaced, each by its first 16 characters |
| Loans.EditingIdFor | bookruang-frontend/src/components/Dashboard.tsx:121 | `loan.id \|\| null` is the loan's id exactly when that id is truthy, and null otherwise |
| Loans.UpdateBody | bookruang-frontend/src/components/Dashboard.tsx:102 | `{ id: editingId, ...form }`: a form carrying its own id is sent as it is (its id wins over `editingId`); otherwise the form with `editingId` added; no other field differs from the form |
| Loans.SubmitCall | bookruang-frontend/src/components/Dashboard.tsx:98-112 | a valid submit is a PUT exactly when the editing id is truthy, to that id, with a body that is the form up to its id (a form carrying its own id is sent as it is; the editing id when the form has none); otherwise a POST of the form itself |
| Loans.EditKeepsEditorConsistent | bookruang-frontend/src/components/Dashboard.tsx:98-102 | after `handleEdit` the editing id equals the form's own id, so an update is a PUT of the edited loan under its own id |
| LoanFilter.FilterBy | bookruang-frontend/src/components/Dashboard.tsx:80 | `filter` yields an order-preserving subsequence, no longer than its input, whose elements are exactly the input elements that pass |
| LoanFilter.FilterByCounts | bookruang-frontend/src/components/Dashboard.tsx:80 | `filter` drops no copy of a passing element: each passing element occurs as often as in the input, and a failing one not at all |
| LoanFilter.View | bookruang-frontend/src/components/Dashboard.tsx:78-84 | the filter effect (`borrowerEnabled` is the admin flag in the dashboard and always on in the legacy view, bookruang-frontend/src/App.tsx:76-98): never longer than the list and holding only its loans; with no active filter string it is the whole list |
| LoanFilter.FilterByTwice | bookruang-frontend/src/components/Dashboard.tsx:79-82 | two successive filter passes equal one pass with the conjunction |
| LoanFilter.FilterByIdentityIff | bookruang-frontend/src/components/Dashboard.tsx:79-82 | a filter pass returns its input exactly when every element passes |
| LoanFilter.GuardedPass | bookruang-frontend/src/components/Dashboard.tsx:80-82 | a pass guarded by `if (x)` equals one unguarded pass with the condition `!x \|\| keep` |
| LoanFilter.ViewIsSinglePass | bookruang-frontend/src/components/Dashboard.tsx:78-84 | the three guarded passes equal a single filter by the combined match condition |
| LoanFilter.ViewSpec | bookruang-frontend/src/components/Dashboard.tsx:78-84 | the visible list is an order-preserving subsequence of the loans in which each loan occurs as often as in the list when it matches and not at all otherwise; a loan matches when its status equals the filter ignoring case, its room contains the room search ignoring case and, when the borrower pass is on, its borrower does too; an empty string constrains nothing |
| LoanFilter.ViewIsAllIff | bookruang-frontend/src/App.tsx:76-98 | the visible list is the whole list exactly when every loan matches |
| LoanFilter.NoFiltersShowsAll | bookruang-frontend/src/App.tsx:285-289 | with every filter string empty the whole list is shown |
| LoanFilter.DisabledBorrowerIgnored | bookruang-frontend/src/components/Dashboard.tsx:82 | without the borrower pass (a non-administrator), the borrower search has no effect, and with only it set the view is the whole list |
| LoanFilter.EmptyRoomMatchesAll | bookruang-frontend/src/components/Dashboard.tsx:81 | an empty room search matches every loan |
| LoanViewState.WithLoans | bookruang-frontend/src/components/Dashboard.tsx:64 | `setLoans(data)` replaces the list, the filter effect recomputes the visible list, and nothing else changes |
| LoanViewState.AfterList | bookruang-frontend/src/components/Dashboard.tsx:59-66 | a list reply other than 401 replaces the list and refilters; a 401 or no reply changes no view state |
| LoanViewState.AfterStats | bookruang-frontend/src/components/Dashboard.tsx:68-74 | a statistics reply other than 401 replaces the statistics; a 401 or no reply changes nothing |
| LoanViewState.Refreshed | bookruang-frontend/src/components/Dashboard.tsx:76 | one list and one statistics refetch change only the list, the visible list and the statistics, and keep the visible list filtered |
| LoanViewState.RefetchOrderIrrelevant | bookruang-frontend/src/components/Dashboard.tsx:76 | the two refetches touch disjoint state, so either arrival order gives the same state, and the visible list stays filtered |
| LoanViewState.LegacyRefreshed | bookruang-frontend/src/App.tsx:57-68 | in the legacy view every reply, whatever its status, replaces the list or the statistics and refilters; only a missing reply leaves them |
| Visibility.DashboardActions | bookruang-frontend/src/components/Dashboard.tsx:318-335 | Detail always; Approve and Reject iff administrator and status exactly "Pending"; Edit iff "Pending" and (administrator or own borrower name); Delete iff administrator |
| Visibility.LegacyActions | bookruang-frontend/src/App.tsx:543-614 | Detail and Delete always; Approve, Reject and Edit iff the status is exactly "Pending" |
| Visibility.DashboardRestrictsLegacy | bookruang-frontend/src/components/Dashboard.tsx:318-335 | the dashboard never offers a button the legacy view does not, and offers the same ones to an administrator |
| Visibility.UserActionsAreOwnEdits | bookruang-frontend/src/components/Dashboard.tsx:327-330 | a non-administrator sees only Detail and, on a pending loan under their own name, Edit |
| Visibility.StatusTestIsCaseSensitive | bookruang-frontend/src/App.tsx:558 | a "pending" loan (lower case) offers neither Approve, Reject nor Edit in either view |
| Auth.AuthHeaderOf | bookruang-frontend/src/services/authService.ts:45-48 | the header is non-empty exactly when a stored user has a non-empty token, and is then only `Authorization: Bearer <token>` |
| Auth.IsAdminUser | bookruang-frontend/src/services/authService.ts:50-52 | administrator exactly when a user is stored and its role is exactly "Admin"; the contracts are in `Auth.AdminRoleIsCaseSensitive` and `Routing.AdminRoleIgnoresToken` |
| Auth.EmptySlotHasNoRights | bookruang-frontend/src/services/authService.ts:40-52 | with an empty slot there is no header and no administrator |
| Auth.AdminRoleIsCaseSensitive | bookruang-frontend/src/services/authService.ts:50-52 | any role other than exactly "Admin" (for instance "admin") is not an administrator |
| Auth.Session.constructor | bookruang-frontend/src/services/authService.ts:40-43 | the slot starts empty |
| Auth.Session.Login | bookruang-frontend/src/services/authService.ts:25-34 | the request carries `usernameOrEmail` = email and the password; the reply is returned; it is stored only when its token is non-empty, and then it is the current user and gives the Bearer header |
| Auth.Session.Logout | bookruang-frontend/src/services/authService.ts:36-38 | the slot is empty: no current user, an empty header, not an administrator |
| Auth.Session.GetCurrentUser | bookruang-frontend/src/services/authService.ts:40-43 | the stored user, or null for an empty slot; `Login` and `Logout` state what it returns after each |
| Auth.Session.GetAuthHeader | bookruang-frontend/src/services/authService.ts:45-48 | a non-empty header exactly when the stored user has a non-empty token, and then only `Authorization: Bearer <token>` |
| Auth.Session.IsAdmin | bookruang-frontend/src/services/authService.ts:50-52 | true only when a user is stored whose role is exactly "Admin" |
| Routing.Guard | bookruang-frontend/src/components/PrivateRoute.tsx:8-16 | renders the children unchanged exactly when a user with a non-empty token is stored; otherwise a replacing redirect to "/login" |
| Routing.GuardAgreesWithAuthHeader | bookruang-frontend/src/components/PrivateRoute.tsx:11-15 | the guard renders exactly when requests would carry an Authorization header |
| Routing.LoggedOutRedirects | bookruang-frontend/src/components/PrivateRoute.tsx:11-13 | with no stored user the guard redirects to "/login" |
| Routing.AdminRoleIgnoresToken | bookruang-frontend/src/services/authService.ts:50-52 | a stored user with role "Admin" and no token is an administrator for `isAdmin`, yet the guard redirects it to "/login" and its requests carry no header |
| DashboardComponent.SubmitFailureMessage | bookruang-frontend/src/components/Dashboard.tsx:104-116 | a failed submit always alerts a non-empty text: the server's message whenever it sent one, "Terjadi kesalahan!" when the request throws |
| DashboardComponent.Dashboard.constructor | bookruang-frontend/src/components/Dashboard.tsx:29-49 | the user and role are read from the session; the form and the admin name start with the user's full name; everything else is empty |
| DashboardComponent.Dashboard.ApplyFilters | bookruang-frontend/src/components/Dashboard.tsx:78-84 | the visible list becomes the filter of the list, with the borrower pass on for administrators only |
| DashboardComponent.Dashboard.Refresh | bookruang-frontend/src/components/Dashboard.tsx:59-76 | exactly one list request and one statistics request are logged, with the current header; each non-401 reply is installed; a 401 to either empties the session and redirects to the login page |
| DashboardComponent.Dashboard.ReceiveList | bookruang-frontend/src/components/Dashboard.tsx:62-65 | a 401 empties the session and redirects; any other reply installs the list; no reply changes nothing |
| DashboardComponent.Dashboard.ReceiveStats | bookruang-frontend/src/components/Dashboard.tsx:71-73 | a 401 empties the session and redirects; any other reply installs the statistics |
| DashboardComponent.Dashboard.Install | bookruang-frontend/src/components/Dashboard.tsx:64 | the list is replaced and the visible list recomputed by the filter effect; nothing else changes |
| DashboardComponent.Dashboard.SignOut | bookruang-frontend/src/components/Dashboard.tsx:62 | a 401 empties the session slot and sends the user to the login page |
| DashboardComponent.Dashboard.ResetForm | bookruang-frontend/src/components/Dashboard.tsx:86-89 | the form becomes the blank form with the user's name as borrower |
| DashboardComponent.Dashboard.ChangeField | bookruang-frontend/src/components/Dashboard.tsx:271-277 | typing sets that field; the borrower input is read-only for a non-administrator |
| DashboardComponent.Dashboard.SetFilters | bookruang-frontend/src/components/Dashboard.tsx:287-296 | the filter strings are set and the visible list is recomputed |
| DashboardComponent.Dashboard.ResetFilters | bookruang-frontend/src/components/Dashboard.tsx:297 | every filter string is emptied and the whole list is shown |
| DashboardComponent.Dashboard.Succeed | bookruang-frontend/src/components/Dashboard.tsx:115 | a successful mutation alerts once and then refreshes |
| DashboardComponent.Dashboard.HandleSubmit | bookruang-frontend/src/components/Dashboard.tsx:91-117 | a refused form issues no request and changes no state; otherwise exactly one PUT (truthy editing id, body of id plus form) or POST is logged; only an ok reply resets the form, clears the editing id and adds one list and one statistics refetch; a failed or missing reply changes no state |
| DashboardComponent.Dashboard.Send | bookruang-frontend/src/components/Dashboard.tsx:97-116 | the PUT or POST with the current header; an ok reply leads to the save, anything else only to the failure alert |
| DashboardComponent.Dashboard.Saved | bookruang-frontend/src/components/Dashboard.tsx:105-115 | the success alert; the editing id cleared when it was set; the form reset; both refetches |
| DashboardComponent.Dashboard.HandleEdit | bookruang-frontend/src/components/Dashboard.tsx:119-123 | the form becomes the loan with times cut to 16 characters, and the editing id is the loan's truthy id or null |
| DashboardComponent.Dashboard.CancelEdit | bookruang-frontend/src/components/Dashboard.tsx:280 | editing stops and the form is reset |
| DashboardComponent.Dashboard.HandleDelete | bookruang-frontend/src/components/Dashboard.tsx:125-130 | an absent or 0 id, or a declined confirmation, issues nothing; otherwise one DELETE with the header; only an ok reply alerts success and refetches; a failure alerts "Gagal menghapus" and changes no state |
| DashboardComponent.Dashboard.OpenApprove | bookruang-frontend/src/components/Dashboard.tsx:323 | the loan is selected, the admin name becomes the user's name, and the approve dialog opens |
| DashboardComponent.Dashboard.OpenReject | bookruang-frontend/src/components/Dashboard.tsx:324 | the loan is selected, the admin name becomes the user's name, and the reject dialog opens |
| DashboardComponent.Dashboard.SetDecisionInputs | bookruang-frontend/src/components/Dashboard.tsx:356-357 | typing sets the admin name and the notes |
| DashboardComponent.Dashboard.CanDecide | bookruang-frontend/src/components/Dashboard.tsx:133 | the approve and reject guard: a loan is selected and the admin name is not blank after `trim`; its use is stated by `HandleApprove` and `HandleReject` |
| DashboardComponent.Dashboard.Decide | bookruang-frontend/src/components/Dashboard.tsx:134-141 | one approve or reject request for the selected loan's id with the admin name and notes; only an ok reply closes the dialog, clears notes and selection, alerts and refetches |
| DashboardComponent.Dashboard.Decided | bookruang-frontend/src/components/Dashboard.tsx:140-141 | an ok reply closes the dialog, clears the notes and the selection, alerts "Disetujui!"/"Ditolak!" and refetches both |
| DashboardComponent.Dashboard.HandleApprove | bookruang-frontend/src/components/Dashboard.tsx:132-142 | without a selected loan and a non-blank admin name: an alert, no request, no change; otherwise as `Decide` for approve |
| DashboardComponent.Dashboard.HandleReject | bookruang-frontend/src/components/Dashboard.tsx:144-155 | the approve guard, then non-blank notes ("Alasan wajib diisi!"), each failing with no request; otherwise as `Decide` for reject |
| DashboardComponent.Dashboard.CancelDecision | bookruang-frontend/src/components/Dashboard.tsx:359 | "Batal" closes that dialog and clears the notes |
| DashboardComponent.Dashboard.DismissDecision | bookruang-frontend/src/components/Dashboard.tsx:348 | a backdrop click closes that dialog and nothing else |
| DashboardComponent.Dashboard.HandleLogout | bookruang-frontend/src/components/Dashboard.tsx:157-159 | once confirmed, the session is emptied and the login page is shown; otherwise nothing changes |
| DashboardComponent.Dashboard.OpenDetail | bookruang-frontend/src/components/Dashboard.tsx:319 | the loan is selected and the detail dialog opens |
| DashboardComponent.Dashboard.CloseDetail | bookruang-frontend/src/components/Dashboard.tsx:409 | the detail dialog closes |
| LegacyApp.App.constructor | bookruang-frontend/src/App.tsx:28-53 | every field starts empty, the form blank with status "Pending" |
| LegacyApp.App.ApplyFilters | bookruang-frontend/src/App.tsx:76-98 | the visible list becomes the filter of the list, with the borrower pass always on |
| LegacyApp.App.Refresh | bookruang-frontend/src/App.tsx:57-73 | exactly one list request and one statistics request, without a header; every reply is installed whatever its status |
| LegacyApp.App.ReceiveList | bookruang-frontend/src/App.tsx:57-62 | any list reply replaces the list and the visible list is refiltered; no reply changes nothing |
| LegacyApp.App.ReceiveStats | bookruang-frontend/src/App.tsx:64-68 | any statistics reply replaces the statistics; no reply changes nothing |
| LegacyApp.App.Settle | bookruang-frontend/src/App.tsx:173-175 | the handler's alert, then both refetches |
| LegacyApp.App.ChangeField | bookruang-frontend/src/App.tsx:379-405 | typing sets that field of the form |
| LegacyApp.App.SetFilters | bookruang-frontend/src/App.tsx:452-483 | the filter strings are set and the visible list is recomputed |
| LegacyApp.App.ResetFilters | bookruang-frontend/src/App.tsx:285-289 | every filter string is emptied and then the whole list is shown |
| LegacyApp.App.HandleSubmit | bookruang-frontend/src/App.tsx:100-153 | a refused form issues no request; otherwise one PUT or POST without a header, and once it settles, whatever the status, the success alert, the editing id cleared, the form reset and both refetches; only a request that throws stops the handler |
| LegacyApp.App.Saved | bookruang-frontend/src/App.tsx:128-152 | the success alert, editing stopped, the form blanked and both refetches |
| LegacyApp.App.HandleEdit | bookruang-frontend/src/App.tsx:155-163 | the form becomes the loan with times cut to 16 characters, and the editing id is the loan's truthy id or null |
| LegacyApp.App.CancelEdit | bookruang-frontend/src/App.tsx:411-425 | editing stops and the form is blanked |
| LegacyApp.App.HandleDelete | bookruang-frontend/src/App.tsx:165-176 | an absent or 0 id, or a declined confirmation, issues nothing; otherwise one DELETE, and once it settles the alert and both refetches whatever the status |
| LegacyApp.App.OpenApprove | bookruang-frontend/src/App.tsx:235-238 | the loan is selected and the approve dialog opens |
| LegacyApp.App.OpenReject | bookruang-frontend/src/App.tsx:240-243 | the loan is selected and the reject dialog opens |
| LegacyApp.App.SetDecisionInputs | bookruang-frontend/src/App.tsx:667-673 | typing sets the admin name and the notes |
| LegacyApp.App.CanDecide | bookruang-frontend/src/App.tsx:179 | the approve and reject guard: a loan is selected and the admin name is not blank after `trim`; its use is stated by `HandleApprove` and `HandleReject` |
| LegacyApp.App.Decide | bookruang-frontend/src/App.tsx:184-201 | one approve or reject request without a header; once it settles, whatever the status, the dialog closes, admin name, notes and selection are cleared, the alert shows and both refetches run |
| LegacyApp.App.Decided | bookruang-frontend/src/App.tsx:195-201 | the dialog closes, admin name, notes and selection are cleared, the alert shows and both refetches run |
| LegacyApp.App.HandleApprove | bookruang-frontend/src/App.tsx:178-202 | without a selected loan and a non-blank admin name: an alert, no request, no change; otherwise as `Decide` for approve |
| LegacyApp.App.HandleReject | bookruang-frontend/src/App.tsx:204-233 | the approve guard, then non-blank notes ("Alasan penolakan wajib diisi!"), each failing with no request; otherwise as `Decide` for reject |
| LegacyApp.App.CancelDecision | bookruang-frontend/src/App.tsx:688-693 | "Batal" closes that dialog and clears the admin name and the notes |
| LegacyApp.App.DismissDecision | bookruang-frontend/src/App.tsx:635 | a backdrop click closes that dialog and nothing else |
| LegacyApp.App.OpenDetail | bookruang-frontend/src/App.tsx:245-248 | the loan is selected and the detail dialog opens |
| LegacyApp.App.CloseDetail | bookruang-frontend/src/App.tsx:800 | the detail dialog closes |
| RegisterComponent.FirstError | bookruang-frontend/src/components/Register.tsx:20-33 | no error exactly when the passwords match, the password has at least 6 characters and the username at least 3; the checks run in that order and the first failure's message wins, so a short mismatched password reports the mismatch |
| RegisterComponent.FailureText | bookruang-frontend/src/components/Register.tsx:42 | the error shown is the thrown message, or the fallback text when that is empty; never empty |
| RegisterComponent.Register.constructor | bookruang-frontend/src/components/Register.tsx:6-12 | all inputs and the error empty, not loading |
| RegisterComponent.Register.SetInputs | bookruang-frontend/src/components/Register.tsx:60-131 | typing sets the five inputs; they are disabled while loading |
| RegisterComponent.Register.Submit | bookruang-frontend/src/components/Register.tsx:15-38 | the error is cleared; a failing check sets its message and sends nothing; otherwise one registration carrying exactly the full name, username, email and password is sent and loading starts |
| RegisterComponent.Register.Complete | bookruang-frontend/src/components/Register.tsx:38-45 | loading ends either way; success alerts and goes to "/login"; failure shows the thrown message or the fallback |
| RegisterComponent.Register.HandleRegister | bookruang-frontend/src/components/Register.tsx:15-46 | the whole submission: no call on a failing check, exactly one call otherwise, and loading false at the end |

## Left out

- HTTP and JSON: URLs, `fetch`/`axios`, headers other than Authorization, and body encoding are not modelled; each request is a `Loans.Request` log entry and each reply a parameter (ok, another status with a message, or no reply). A reply whose body is not JSON (an empty 403, for example) makes `res.json()` throw, so it has to be given as `NetworkError`: submit then alerts the crash message "Terjadi kesalahan!", and approve or reject fail without an alert.
- Reply bodies of the wrong shape: a list or statistics reply is assumed to carry a list or statistics (both views would install whatever JSON a failing request returns: the dashboard for any failing list or statistics reply other than 401, the legacy view for any reply).
- `LoanViewState.AfterList`: a reply whose `res.json()` throws is treated like a missing reply, which in the code is caught and logged.
- Dates: `new Date(...)` parsing is modelled as the lexicographic order of the strings. This agrees with the code only for the fixed-width local date-times the form's inputs produce, in a time zone without daylight-saving gaps; a skipped local time (moved forward by `new Date`) and an unparseable time (NaN, which makes the test false) are not modelled.
- `toLocaleString` formatting and the status badge colours: rendering only.
- Case folding: `toLowerCase` is modelled on ASCII letters only.
- String length: JavaScript counts UTF-16 code units, the model counts characters; the two differ only outside the Basic Multilingual Plane (`RegisterComponent.FirstError`).
- Browser constraint validation (`required`, `minLength`) that can stop a form before its handler runs is not modelled; the handlers are modelled as if called.
- Asynchrony: the refetches after a mutation are not awaited and could interleave with other events; they are modelled as completing in order, right after the mutation, both requests being sent before either reply is read.
- `DashboardComponent.Dashboard`: the user and role are read once, when the view is built; the component reads them again on every render, which only matters if the session changes while the dashboard stays mounted.
- `alert`, `window.scrollTo`, `navigate` and `console.error` are recorded only as ghost values (alerts and redirects) or not at all (scrolling, console output).
- The login form, the registration service call (`register` in authService.ts, a pass-through POST) and the application's routes beyond `PrivateRoute` are not modelled.
- The server: statistics, status transitions and authorisation are not part of this model.
- `Auth.Session.GetCurrentUser`, `Auth.Session.GetAuthHeader`, `Auth.Session.IsAdmin`: the JSON round trip through `localStorage` is taken to return the stored value unchanged.
