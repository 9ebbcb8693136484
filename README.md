# Passwordless notes app: the client-side state machines

This project models the logic of a small React application in which a
visitor signs up or signs in with a one-time code sent to their email
address, and then keeps a private list of text notes. Four pieces of
the client carry that logic, and each is modelled here in its own form:

- **The OTP form** (`OtpFlow`), used by the sign-up page and the sign-in
  page. It is a class with the pages' fields: `email`, `otp`, `otpVisible`,
  `otpRequested` (false while the user enters an email, true once a code was
  sent), `error` and `loading`. `RequestOtp` and `VerifyOtp` run the
  handlers up to their `await`. They clear `error`, validate locally and
  return the provider call they issue, or none. `Settle(outcome)` is the rest
  of the handler, run once the identity provider answers. `PressPrimary` is
  the primary button, which dispatches on `otpRequested` and is disabled
  while `loading`. The sign-in page's state is exactly `OtpForm`. The
  sign-up page (`SignUpPage`) is the same form plus a name and a date of
  birth, which never reach the provider. Both pages share one definition of
  the schemas and the transitions.
- **The schemas** (`Schemas`): the zod schemas for email, OTP and note
  drafts. Each is modelled as the list of issues zod reports, in its check
  order, and the page shows `errors[0]?.message ?? fallback`. String
  lengths are JavaScript lengths in UTF-16 code units (`Js.Length`).
  zod's email test is a library regular expression, so the form takes it
  as a parameter `isEmail`.
- **The session holder** (`AuthContext.AuthProvider`): `user`, `session`,
  `loading`, the effect's `isMounted` flag and the listener registration.
  It has three events: the initial probe resolving, a change notification,
  and teardown. Its invariant is `user == session?.user ?? null`.
- **The route gate** (`Routing.Route`): a pure function from `loading`, the
  user and the path to a placeholder, a page or a redirect.
- **The notes page** (`Home.HomePage`) over a model of the notes table
  (`NoteStore`). The table is a sequence of rows. The query keeps the
  caller's rows, newest first. Insert and delete are scoped to the caller's
  id. The page's invariant is that the list holds only the user's notes,
  newest first. `DisplayName` is the greeting's fallback chain.

The code request, the code verification, the query, the insert and the
delete are each answered by an `Outcome` parameter (`Ok` or
`Err(message)`); the insert and the delete also act on the table model
(`NoteStore.Store`). The session probe and the change notification instead
hand the session holder an `Option<Session>`, the argument of
`AuthProvider.SessionResolved` and `AuthProvider.AuthStateChanged`. As in
the code (src/contexts/AuthContext.tsx:20), the probe's `error` is ignored:
only `data.session` is read. Mounting the notes page is its constructor
followed by `FetchNotes`, the effect at src/pages/Home.tsx:27-30, which runs
only when a user is present; the page is built only with one.

The module `Journeys` holds clients that replay whole journeys from the
methods' postconditions alone. `OtpJourney` requests a code, has a short
code refused locally, has a wrong code refused by the provider and then
accepts the right code. `SessionJourney` follows the gate from the probe to
the notes page. `EmptyTitleJourney` has an empty title refused before any
request. `TwoNotesJourney` creates two notes and lists them newest first,
and `DeleteJourney` then deletes the newer one and keeps the older.

Three facts about the code shape the model:
- Nothing sets `otpRequested` back to false, so there is no way back to the
  email step.
- Emails are checked only by zod's email test (`isEmail`).
- Deleting another user's note is not an error in the code. The scoped
  delete matches no row, and the page still filters that id out of its
  list. The model's store never removes another user's row
  (`NoteStore.DeleteSparesOthers`).

## Model

| member | source | states |
|---|---|---|
| Js.Length | src/pages/Auth.tsx:10-11 | the length zod's `min`/`max` compare is JavaScript's UTF-16 length: at least the character count, at most twice it, and zero only for the empty string |
| Schemas.CheckEmail | src/pages/SignIn.tsx:23-25 | the email passes exactly when zod's email test accepts it; otherwise the message is "Enter a valid email" and the "Invalid email" fallback never shows |
| Schemas.MatchesDigitsIff | src/pages/Auth.tsx:12 | `^\d{n}$` matches exactly the strings of n ASCII digits |
| Schemas.CheckOtp | src/pages/Auth.tsx:8-12 | the code passes iff it is exactly 6 ASCII digits; a JS length other than 6 gives "OTP must be 6 digits" (too short or too long); length 6 with a non-digit gives "OTP must be numeric"; the fallback never shows |
| Schemas.CheckNote | src/pages/Home.tsx:6-9 | a draft passes iff 1 <= title length <= 100 and 1 <= content length <= 2000; a title problem is reported before any content problem, with the four messages of the schema |
| OtpFlow.PrimaryCall | src/pages/Auth.tsx:27-53 | nothing reaches the provider while the button is disabled or when the email fails; before a code was sent the button sends a code for exactly a valid email; afterwards it verifies exactly when the email is valid and the code is 6 digits, and only email and code are sent |
| OtpFlow.SubmitError | src/pages/Auth.tsx:45-50 | the email is validated before the code in the verify phase; an invalid email reports the email message whatever the code; an error is reported exactly when no provider call is made |
| OtpFlow.OtpForm.constructor | src/pages/SignIn.tsx:15-20 | the form starts empty, hidden, in the email phase, with no error and nothing in flight |
| OtpFlow.OtpForm.SetEmail | src/pages/SignIn.tsx:75 | the email input sets `email` and nothing else |
| OtpFlow.OtpForm.SetOtp | src/pages/SignIn.tsx:90 | the code input sets `otp` and nothing else |
| OtpFlow.OtpForm.ToggleOtpVisible | src/pages/SignIn.tsx:98 | flips `otpVisible` and changes no other field |
| OtpFlow.OtpForm.RequestOtp | src/pages/SignIn.tsx:22-31 | a valid email clears `error`, sets `loading` and issues a code request for that email; an invalid one sets the email message, issues nothing and leaves `loading` false; the phase is untouched |
| OtpFlow.OtpForm.VerifyOtp | src/pages/SignIn.tsx:37-45 | the email is checked, then the code; either failure sets its message and issues nothing; otherwise `loading` is set and a verification of that email and code is issued; the phase is untouched |
| OtpFlow.OtpForm.PressPrimary | src/pages/SignIn.tsx:106-109 | the button runs the verification iff a code was sent, the code request otherwise, and does nothing while `loading` |
| OtpFlow.OtpForm.Settle | src/pages/SignIn.tsx:32-48 | `loading` ends false on every path; a provider error is shown verbatim and keeps the phase and the code; a sent code moves to the code phase with no error; a verified code changes nothing else; the phase never goes back |
| OtpFlow.SignUpPage.constructor | src/pages/Auth.tsx:16-25 | the sign-up page starts with an empty name and date of birth and a form in its initial state |
| OtpFlow.SignUpPage.SetName | src/pages/Auth.tsx:91 | the name input sets `name` only |
| OtpFlow.SignUpPage.SetDob | src/pages/Auth.tsx:102 | the date input sets `dob` only |
| OtpFlow.SignUpPage.PressPrimary | src/pages/Auth.tsx:144-147 | the sign-up button behaves as the form's, and what reaches the provider depends on email, code and phase only: name and date of birth are never passed and stay unchanged |
| AuthContext.AuthProvider.constructor | src/contexts/AuthContext.tsx:14-16 | no user, no session, `loading` true; the probe is outstanding and the listener registered |
| AuthContext.AuthProvider.SessionResolved | src/contexts/AuthContext.tsx:19-25 | while mounted, sets the session to the probe's, the user to its user and `loading` to false; after teardown changes nothing; `loading` never becomes true again; the user stays the session's user |
| AuthContext.AuthProvider.AuthStateChanged | src/contexts/AuthContext.tsx:27-30 | while subscribed, replaces the session wholesale and the user with its user, leaving `loading`; after unsubscribing changes nothing; the user stays the session's user |
| AuthContext.AuthProvider.Teardown | src/contexts/AuthContext.tsx:32-35 | clears the liveness flag and unsubscribes, so no later probe result or notification is applied |
| Routing.Route | src/App.tsx:7-27 | the placeholder iff loading; signed out, "/auth" renders the sign-up page and every other path redirects to "/auth"; signed in, "/" renders the notes page and every other path redirects to "/"; the sign-in page is never rendered |
| Routing.RedirectSettles | src/App.tsx:14-24 | a redirect target, routed in the same state, renders a page |
| Routing.ScreenIgnoresSession | src/App.tsx:8 | two session holders with the same `loading` and user presence show the same screen: the session and the user's identity do not matter |
| Routing.SessionShowsHome | src/App.tsx:20-22 | with a published session and the probe settled, "/" renders the notes page and every path reaches it in at most one redirect |
| NoteStore.Filter | src/pages/Home.tsx:62 | `filter` keeps exactly the elements its predicate accepts and never grows the list |
| NoteStore.FilterConcat | src/pages/Home.tsx:62 | filtering distributes over concatenation, so the kept elements keep their order |
| NoteStore.FilterNewestFirst | src/pages/Home.tsx:62 | filtering a newest-first list leaves it newest first |
| NoteStore.SortByDate | src/pages/Home.tsx:38 | the ordering is a permutation of its input and is newest first |
| NoteStore.Select | src/pages/Home.tsx:34-38 | the query returns only the caller's rows, every one of them, each as often as stored, newest first |
| NoteStore.DeleteSparesOthers | src/pages/Home.tsx:60 | a delete scoped to one user leaves every other user's query result exactly as it was |
| NoteStore.Store.Insert | src/pages/Home.tsx:49 | the inserted row carries the page's title, content and user id plus the server's id and timestamp, appended to the table |
| NoteStore.Store.Delete | src/pages/Home.tsx:60 | removes exactly the rows with that id and that owner; no other user's row is removed |
| Home.BeforeFirst | src/pages/Home.tsx:24 | `split('@')[0]` is the longest prefix without '@': it is followed by '@' or is the whole string |
| Home.DisplayName | src/pages/Home.tsx:22-25 | the greeting is the full name if truthy, else the name if truthy, else the email's part before its first '@' if the email is non-empty, else "there" |
| Home.HomePage.constructor | src/pages/Home.tsx:14-20 | the page starts with no notes, an empty draft, the composer closed, no error and nothing in flight |
| Home.HomePage.SetTitle | src/pages/Home.tsx:105 | the title input sets `title` only |
| Home.HomePage.SetContent | src/pages/Home.tsx:112 | the content input sets `content` only |
| Home.HomePage.ToggleComposer | src/pages/Home.tsx:91 | flips `showComposer` only |
| Home.HomePage.FetchNotes | src/pages/Home.tsx:27-41 | run at mount and after an insert; on success the list is replaced wholesale by the user's rows, newest first, and the error cleared; on failure the list is kept and the provider's message shown |
| Home.HomePage.CreateNote | src/pages/Home.tsx:43-49 | a failing draft sets the validation message and inserts nothing, keeping draft, list and `loading`; a passing one sets `loading` and inserts the draft under the user's id |
| Home.HomePage.CreateSettled | src/pages/Home.tsx:49-56 | `loading` ends false; a failed insert shows the message and keeps the draft, the list and the table; a successful one appends the row with the user's id, clears the draft, refetches and closes the composer even when the refetch fails; after both succeed the new note is in the list |
| Home.HomePage.DeleteNote | src/pages/Home.tsx:58-63 | on success the table loses only the user's row with that id and the list loses exactly its entries with that id, the rest in order; on failure both are kept and the message shown |
| Journeys.OtpJourney | src/pages/Auth.tsx:27-57 | a code request, a short code, a wrong code and the right code end in the code phase with no error and nothing in flight |
| Journeys.FirstNoteJourney | src/pages/Home.tsx:43-56 | one note created on a fresh page is the table's only row, under the user's id, with nothing in flight |
| Journeys.TwoNotesJourney | src/pages/Home.tsx:43-56 | two notes created one after the other come back newest first, each under the user's id |
| Journeys.NewerFirst | src/pages/Home.tsx:38 | of two of a user's rows, the newer is listed first |

## Left out

- Rendering: JSX, CSS classes, icons, the hero image, the loading texts of the buttons and the `toLocaleString` date formatting are presentation only.
- Transport: the identity provider's and the database's network calls are outcome parameters or the in-memory table. OTP expiry, rate limits and server-side row security are not modelled.
- zod's `.email()` regular expression cannot be seen from this code. It is the parameter `isEmail`.
- Schemas.MatchesDigits: the OTP pattern carries the `g` flag, whose `test` keeps a `lastIndex` between calls. The model matches statelessly, which holds because zod resets `lastIndex` to 0 before each regex check; a library that did not would refuse a correct code right after another code matched.
- OtpFlow.OtpForm.RequestOtp: requires `!loading`. Its only caller is the primary button, which is disabled while `loading`. Two overlapping code requests are not modelled.
- OtpFlow.OtpForm.VerifyOtp: requires `!loading`, for the same reason.
- Home.HomePage.CreateNote: requires `!loading`. Its only caller is the "Add note" button, which is disabled while `loading`.
- Interleaving of awaited calls is modelled only as an order of discrete events. Inputs may change while a call is pending, and a pending call is settled once. Responses racing each other and the refetch's own suspension inside `createNote` are not modelled.
- The sign-out button (src/pages/Home.tsx:65-67) only asks the provider to end the session. It changes no page state. Its effect arrives as `AuthStateChanged(None)`.
- The router matches paths by exact string equality. react-router's case-insensitive and trailing-slash matching and the `replace` history mode are navigation mechanics, not modelled.
- The notes page's `user` is fixed for its lifetime. The refetch when the context hands it a new user object is a call of `FetchNotes`.
- A successful query whose `data` is null would empty the list (`?? []`). In the model a successful query always returns rows.
- `created_at` is an integer timestamp. The database leaves the order of equal timestamps open; the model keeps table order for them.
- `user_metadata` is untyped. Any non-string values in `full_name` and `name` are not modelled; they are optional strings here.
- The name and date of birth of the sign-up page are collected and never used, as in the code.
