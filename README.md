# Payment console session and list logic, in Dafny

This project models the client-side logic of a small React administration
console for a payment backend. Administrators manage merchant accounts.
Merchants create and review payment transactions. Almost all of the console
is markup; what is modelled here is the logic beneath it:

- **Session and access guard.** `localStorage` is a string-to-string map in a
  `LocalStorage` object. The login handler stores the bearer token under
  `token` and picks a landing screen from the token's `role` claim. Logout
  removes the token. The `ProtectedRoute` guard decides, from storage alone,
  whether to render its screen or redirect to `/login` or `/unauthorized`.
  The route table says which roles each path admits.
- **Merchant list.** A class holding the page, page size, page count, sort
  column and direction, the rows and the dialog flags. It has the sort toggle,
  the unchecked page setter, the Previous/Next enablement, fetch-result
  handling, and the refetch after the merchant dialog saves.
- **Merchant dialog.** The form derived from an optional merchant, the field
  edits, and the submit handler, which sends PATCH for an edited merchant and
  POST otherwise and calls `onSave` only on success.
- **Transaction screen.** The default form, field edits, and the create
  handler, which resets the form after a success and keeps it after a failure.
  It also has the history fetch.

Every call to the backend is an input `ApiResult<T>` (`Success(payload)` or
`Failure`). The `jwtDecode` library is a parameter `JwtDecoder = string ->
Option<Claims>`, where `None` means the library throws. Navigation is a
returned path.

Files: `outcomes.dfy` (Option, ApiResult), `session.dfy` (storage, claims),
`protected_route.dfy`, `app.dfy`, `login.dfy`, `navbar.dfy`,
`merchant_management.dfy`, `merchant_modal.dfy`, `transactions.dfy`. Each of
the last seven modules models one source file. `Outcomes` and `Session` are
shared helpers with no source file of their own: they stand for the API
outcomes and for `localStorage` with the token's claims.

In these places the code does less than a reader might expect; the model
follows the code:

- A token that `jwtDecode` rejects is not treated as "no session" by the
  guard. The guard has no `try`, so rendering fails (`DecodeThrows`). The
  login handler catches the failure, but the token it has just stored stays
  stored.
- Page navigation has no bounds check. `handlePageChange` sets any page it is
  given. Only the buttons' `disabled` conditions stand in the way, and Next
  tests `page === totalPages - 1`, which never holds when there are 0 pages.
- The page size never changes, so there is no "page size change resets the
  page" transition.
- A failed fetch only logs. There is no loading/error status, and a later
  response is not preferred over an earlier one.
- There is no client-side check that REFUND and REVERSAL carry a reference id,
  and no merchant deletion.
- The PATCH body is the whole form, including its empty password.
- The merchant list always opens the dialog in create mode: it never passes a
  `merchant`. Edit mode is modelled as the dialog defines it.

## Model

| member | source | states |
|---|---|---|
| `ProtectedRoute.Authorize` | src/components/ProtectedRoute.tsx:11-31 | no token (absent or empty) gives a redirect to /login whatever the roles are, and /login is the only outcome then; a token the decoder rejects makes rendering fail; a decoded role in the list gives allow; an absent or unlisted role gives /unauthorized (each as an iff) |
| `ProtectedRoute.MissingRoleIsUnauthorized` | src/components/ProtectedRoute.tsx:23-27 | a token whose payload has no role claim is sent to /unauthorized by every role list |
| `ProtectedRoute.EmptyRoleListNeverAllows` | src/components/ProtectedRoute.tsx:25-28 | an empty role list never lets anyone through |
| `ProtectedRoute.AdmissionIsMonotone` | src/components/ProtectedRoute.tsx:25-30 | a session the guard admits is still admitted when more roles are added to the list |
| `App.RouteFor` | src/App.tsx:22-42 | /login mounts the login screen and /unauthorized the unauthorized screen, both unguarded; /merchants mounts the merchant screen guarded by exactly ["ADMIN"]; /transactions mounts the transaction screen guarded by exactly ["MERCHANT"]; "/" redirects to /login and is the only redirecting route; no other path is routed |
| `App.Visit` | src/App.tsx:22-42 | /login and /unauthorized render their screens whatever the session; a guarded screen is shown iff the guard allows it |
| `App.AdminScenario` | src/App.tsx:24-39 | with a stored ADMIN token, /merchants shows the merchant screen and /transactions redirects to /unauthorized |
| `App.MerchantScenario` | src/App.tsx:24-39 | with a stored MERCHANT token, /transactions shows the transaction screen and /merchants redirects to /unauthorized |
| `App.SignedOutLandsOnLogin` | src/App.tsx:24-41 | without a usable token, /merchants, /transactions and / all redirect to /login |
| `App.RedirectsSettle` | src/App.tsx:23-41 | the target of any redirect renders a screen under any session, so navigation never chains redirects |
| `Login.LandingRoute` | src/views/Login.tsx:25-29 | role ADMIN navigates to /merchants and MERCHANT to /transactions (each iff); any other or missing role performs no navigation |
| `Login.StoredAfterLogin` | src/views/Login.tsx:14-16 | a received token is stored under `token`; a failed request leaves storage exactly as it was; no other key changes |
| `Login.LoginForm.constructor` | src/views/Login.tsx:6-8 | the form mounts with empty username, password and error |
| `Login.LoginForm.SetUsername` | src/views/Login.tsx:48 | the username input changes only the username |
| `Login.LoginForm.SetPassword` | src/views/Login.tsx:59 | the password input changes only the password |
| `Login.LoginForm.HandleLogin` | src/views/Login.tsx:11-33 | sends the form's credentials; stores the token before decoding it; a failed request or a rejected token sets the error to exactly "Invalid username or password" and navigates nowhere, with a rejected token still stored; otherwise navigates by role and leaves the error as it was |
| `Login.LandingIsAdmitted` | src/views/Login.tsx:25-29 | wherever a login navigates, the guard of that screen admits the session the login has just stored |
| `Login.UnknownRoleIsStoredButUnauthorized` | src/views/Login.tsx:16-29 | a token with an unknown role stays stored, and both guarded screens redirect it to /unauthorized |
| `Navbar.SignedOut` | src/components/Navbar.tsx:8 | after logout no token is stored and every other key keeps its value |
| `Navbar.HandleLogout` | src/components/Navbar.tsx:7-10 | logout removes `token` from storage, leaves the rest, and navigates to /login |
| `Navbar.LogoutIsIdempotent` | src/components/Navbar.tsx:8 | logging out twice leaves the same storage as once |
| `Navbar.LogoutKeepsMerchantRecord` | src/components/Navbar.tsx:8 | the stored `merchant` record read by the transaction screen survives logout |
| `Navbar.LoggedOutLandsOnLogin` | src/components/Navbar.tsx:7-10 | after logout, /merchants, /transactions and / all redirect to /login |
| `MerchantManagement.Flip` | src/views/MerchantManagement.tsx:45 | flipping always changes the direction |
| `MerchantManagement.ToggleSort` | src/views/MerchantManagement.tsx:43-50 | the clicked column becomes the active one; on the active column the direction flips, on another it becomes ASC; the sort state always changes, so every header click refetches |
| `MerchantManagement.ToggleActiveColumn` | src/views/MerchantManagement.tsx:44-45 | n clicks on the active column restore its direction when n is even and flip it when n is odd (twice restores) |
| `MerchantManagement.Press` | src/views/MerchantManagement.tsx:95-109 | Previous moves back one page iff the page is not 0; Next moves forward one iff the page is not totalPages-1; a disabled button changes nothing; one press keeps a page in [0, totalPages-1] there |
| `MerchantManagement.PressesStayInRange` | src/views/MerchantManagement.tsx:97-106 | from a page in [0, totalPages-1], no series of button clicks leaves that range |
| `MerchantManagement.NextRunsAwayWithoutPages` | src/views/MerchantManagement.tsx:103-107 | with totalPages 0, Next is never disabled from page 0 up, so n clicks reach page+n, a page that does not exist |
| `MerchantManagement.AfterFetch` | src/views/MerchantManagement.tsx:31-41 | a successful fetch replaces both rows and page count with the response's; a failed one keeps both |
| `MerchantManagement.FewerPagesLeavePageOutOfRange` | src/views/MerchantManagement.tsx:36-37 | a successful fetch that reports no more pages than the current page index leaves that page out of range, since the page is never clamped; a failed fetch never changes whether the page is in range |
| `MerchantManagement.MerchantList.Query` | src/views/MerchantManagement.tsx:33-35 | the fetch parameters are the current page, page size, sort column and direction |
| `MerchantManagement.MerchantList.constructor` | src/views/MerchantManagement.tsx:17-25 | page 0, page size 10, 0 pages, sorted by "id" ASC, no rows, nothing selected, both dialogs closed |
| `MerchantManagement.MerchantList.FetchMerchants` | src/views/MerchantManagement.tsx:31-41 | sends the current query; rows and page count become the fetch result and nothing else changes; a success reporting no more pages than the current page index leaves the page unchanged and out of range |
| `MerchantManagement.MerchantList.HandleSort` | src/views/MerchantManagement.tsx:43-50 | the sort state becomes the toggled one, nothing else changes, and the query always differs afterwards |
| `MerchantManagement.MerchantList.HandlePageChange` | src/views/MerchantManagement.tsx:52-54 | the page becomes the argument, unchecked, and nothing else changes |
| `MerchantManagement.MerchantList.PressButton` | src/views/MerchantManagement.tsx:95-109 | a pager click moves the page as `Press` says, changes nothing else, and keeps an in-range page in range |
| `MerchantManagement.MerchantList.OpenMerchantModal` | src/views/MerchantManagement.tsx:64-69 | "Add Merchant" only opens the dialog |
| `MerchantManagement.MerchantList.CloseMerchantModal` | src/views/MerchantManagement.tsx:113 | the dialog's cancel only closes it |
| `MerchantManagement.MerchantList.OnMerchantSaved` | src/views/MerchantManagement.tsx:114-117 | a save closes the dialog and refetches the current query, applied as `AfterFetch` says |
| `MerchantManagement.MerchantList.HandleMerchantClick` | src/views/MerchantManagement.tsx:56-59 | a row click selects that merchant and opens its transaction dialog |
| `MerchantManagement.MerchantList.CloseTransactionModal` | src/views/MerchantManagement.tsx:123 | closing the transaction dialog keeps the selection |
| `MerchantManagement.SubmitFromList` | src/views/MerchantManagement.tsx:111-119 | the list opens the dialog only in create mode; a failed submit changes nothing in the list; a successful one closes the dialog and refetches |
| `MerchantModal.InitialForm` | src/components/MerchantModal.tsx:18-25 | without a merchant every text field is "" and status is ACTIVE; with one, username, name, email, description and status are copied; the password always starts "" |
| `MerchantModal.ApplyEdit` | src/components/MerchantModal.tsx:53-102 | each input's edit changes its own field and no other |
| `MerchantModal.DistinctEditsCommute` | src/components/MerchantModal.tsx:53-102 | edits of two different fields give the same form in either order |
| `MerchantModal.LaterEditWins` | src/components/MerchantModal.tsx:53-102 | a second edit of the same field leaves the form as if only the second had been made |
| `MerchantModal.EditModeKeepsEmptyPassword` | src/components/MerchantModal.tsx:57-68 | in edit mode no series of offered edits changes the empty password, so the PATCH body carries "" |
| `MerchantModal.SubmitRequest` | src/components/MerchantModal.tsx:30-34 | PATCH /merchant/{id} iff a merchant is being edited, with its id; POST /merchant otherwise; the body is always the whole form |
| `MerchantModal.MerchantDialog.constructor` | src/components/MerchantModal.tsx:17-25 | the form starts as `InitialForm` of the `merchant` prop |
| `MerchantModal.MerchantDialog.Edit` | src/components/MerchantModal.tsx:53-102 | an input's change applies that one edit; the password input is offered only in create mode |
| `MerchantModal.MerchantDialog.HandleSubmit` | src/components/MerchantModal.tsx:27-39 | sends `SubmitRequest` of the current form; `onSave` is called iff the request succeeds; the form never changes (the method modifies nothing) |
| `Transactions.DefaultForm` | src/views/Transactions.tsx:16-23 | AUTHORIZE, empty reference id, email and phone, amount 0, and the stored merchant's id |
| `Transactions.ApplyEdit` | src/views/Transactions.tsx:68-109 | each input's edit changes its own field and no other; the merchant id is never edited |
| `Transactions.EditsKeepMerchantId` | src/views/Transactions.tsx:68-109 | no series of edits changes the form's merchant id |
| `Transactions.RefundWithoutReferenceIsPosted` | src/views/Transactions.tsx:38-54 | on a fresh screen, choosing REFUND or REVERSAL and submitting at once posts the default form with that type and an empty reference id, with no check; on success the form is reset, on failure it is kept |
| `Transactions.AfterFetch` | src/views/Transactions.tsx:29-36 | a successful fetch replaces the history wholesale; a failed one keeps it |
| `Transactions.TransactionsView.constructor` | src/views/Transactions.tsx:15-23 | an empty history and the default form |
| `Transactions.TransactionsView.FetchTransactions` | src/views/Transactions.tsx:29-36 | the history becomes `AfterFetch` of the response; the form is untouched |
| `Transactions.TransactionsView.Edit` | src/views/Transactions.tsx:68-109 | an input's change applies that one edit and leaves the history |
| `Transactions.TransactionsView.HandleCreateTransaction` | src/views/Transactions.tsx:38-54 | posts the form as it stands; on success the history is refetched and the form reset to the default for the merchant then stored; on failure both stay unchanged |

## Left out

- App.RouteFor: paths are compared as exact strings. react-router also matches a path regardless of case and with a trailing slash (`/Merchants`, `/merchants/`); that matching is not modelled, so the model shows nothing for those forms.
- Rendering: markup, styling, tables and the "Page n of m" label.
- HTTP transport, the `api` client (`src/utils/api` is not part of this model) and its bearer header. Each call's outcome is an input.
- `jwtDecode` itself. It is the `JwtDecoder` parameter. A role claim that is not a string is modelled as an absent claim, since neither equals a string.
- JSON parsing of the stored `merchant` record. The transaction screen takes the record's `data.id` as a parameter. The crash when the record is missing is not modelled.
- `parseFloat` and floating point: the amount is a `real` that arrives already parsed, and NaN is not modelled.
- React scheduling. The effect that refetches the merchants when the query changes is not run automatically: after `HandleSort` or `HandlePageChange`, the caller runs `FetchMerchants`. A refetch after a save or a create is applied in the same call as the save. The order in which in-flight responses arrive is not modelled.
- Browser form validation: the `required` and `type="email"` attributes can block a submit before the handler runs. The model lets every submit through.
- `console.error` logging of failures.
- `src/components/TransactionModal.tsx`: a fetch and a display with no logic of its own.
