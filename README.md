# Poll client core, modelled in Dafny

The system is a React client for a polling service. Users sign in or sign
up. They create public or private polls, list and delete their own polls
on a dashboard, and open a poll by its id or by a private share link. They
vote once and then see the tally: total votes, the leading options and the
server's percentages.

Under the markup sit a handful of precise rules, and this project models
them:

- the token slot in browser storage;
- the request wrapper: which headers it builds, and how it turns a 401,
  another failing status or a successful body into a result;
- the session provider's state machine;
- the route guard;
- the sign-in form's checks and how its error messages are classified;
- the poll-creation form: the bounds on its option list, and how submit
  validates and builds the request;
- loading a poll, voting, and marking the tally;
- keeping the dashboard list up to date, and choosing a poll's share link.

One module per source file:

| file | module | source |
|---|---|---|
| common.dfy | `Common` | JavaScript semantics the pages rely on: truthiness of an optional string, `String.prototype.includes`, `trim` with the ECMAScript whitespace set, number-to-decimal rendering, `Array.prototype.filter` |
| api.dfy | `Api` | src/services/api.ts |
| auth_context.dfy | `Auth` | src/contexts/AuthContext.tsx |
| protected_route.dfy | `RouteGuard` | src/components/ui/ProtectedRoute.tsx |
| login_page.dfy | `LoginPage` | src/pages/Login.tsx |
| create_poll.dfy | `CreatePollPage` | src/pages/CreatePoll.tsx |
| results_page.dfy | `ResultsPage` | src/pages/PollResultsView.tsx, plus the tally the poll screen shares |
| dashboard.dfy | `DashboardPage` | src/pages/Dashboard.tsx, plus the share-link rule the poll screen shares |
| poll_view.dfy | `PollViewPage` | src/pages/PollView.tsx |

State that the source updates in place is modelled as classes whose methods
have `modifies` clauses:

- `Api.TokenStore`;
- `Auth.AuthProvider`;
- the page components `LoginPage.LoginPage`, `CreatePollPage.CreatePollForm`,
  `ResultsPage.ResultsView`, `DashboardPage.Dashboard` and
  `PollViewPage.PollView`.

Expressions in the source are modelled as functions, and lemmas relate them.

Environment effects are inputs and outputs of the model:

- The network is an input. For sign-in and sign-up it is an abstract reply:
  either no response at all, or a response record with status, `ok`, status
  text, content type, the parsed JSON body, the text body and the server's
  error message. The poll pages take the settled outcome of each
  `pollsAPI` call (`Result<T>`).
- Navigation targets and the calls a handler makes are outputs.
- The window origin, the route parameters, the recorded `from` location and
  the answer to the delete confirmation are parameters.

The model follows the code in these behaviours:

- Start-up does not decode or validate the stored token. Any non-empty
  token yields the fixed placeholder user
  `{id: "1", username: "user", email: "user@example.com"}`.
- `isAuthenticated` is `!!user` in the session and `!!token` in the token
  slot, so an empty stored token counts as absent.
- A successful sign-in sets the user to `response.user`, whatever it is.
  There is no fallback built from the typed user name.
- A 401 makes the request wrapper fail with "Authentication required", a
  message that contains neither "401" nor "400". The sign-in page therefore
  shows that text verbatim, not "Invalid username or password"
  (`LoginPage.UnauthorizedShownVerbatim`). The poll screen's "401" branch
  never fires for it (`PollViewPage.AuthRequiredStaysPut`). The wrapper
  itself still clears the token and redirects to `/login`. On the sign-in
  page that redirect is a full page load (`pageLoad` of
  `LoginPage.LoginPage.HandleSubmit`). The page starts afresh, as its
  constructor states, and the recorded `from` is gone, so the next
  successful sign-in goes to `/dashboard` (`LoginPage.Destination` of an
  absent path).
- When a sign-in reply carries no token, storage persists the string
  "undefined" (`Api.StoredToken`).
- An error answer whose body is JSON `null` does not fail with
  `HTTP <status>: <statusText>`: `.catch(() => ({}))` only replaces a body
  that does not parse, so reading `message` of `null` throws a TypeError
  whose text becomes the failure. The poll screen stays put even for a 404
  (`PollViewPage.NullErrorBodyStaysPut`).
- The 255 limit on a poll question counts UTF-16 code units, as
  `String.prototype.length` does (`Common.Utf16Length`). A character outside
  the Basic Multilingual Plane counts twice.
- The dashboard calls `pollsAPI.getDashboardPolls`, which src/services/api.ts
  does not define. As written, every fetch therefore throws a TypeError,
  shows "Failed to load polls" and keeps the list the page starts with,
  which is empty. `DashboardPage.Dashboard.FetchPolls` takes the outcome as a
  parameter, so its contract covers this failure (the list is kept) as well
  as an API that defines the call.

## Model

| member | source | states |
|---|---|---|
| Common.Includes | src/pages/Login.tsx:67 | `includes` answers true only when the searched text is no longer than the string |
| Common.IncludesIffOccurs | src/pages/Login.tsx:67 | `Includes`, the left-to-right scan modelling `String.prototype.includes`, answers true iff the text occurs at some index of the string |
| Common.BlankIffTrimEmpty | src/pages/CreatePoll.tsx:27 | a string is blank (only characters `trim` removes) exactly when `trim` leaves "" |
| Common.TrimShape | src/pages/CreatePoll.tsx:47 | `trim` keeps a contiguous piece of the string with no whitespace at either end, and everything it drops before and after that piece is whitespace |
| Common.TrimIdempotent | src/pages/CreatePoll.tsx:47 | trimming an already trimmed string changes nothing |
| Common.Utf16LengthBounds | src/pages/CreatePoll.tsx:38 | `Utf16Length`, modelling `length` in UTF-16 code units, is at least the number of characters and at most twice that |
| Common.Utf16LengthAppend | src/pages/CreatePoll.tsx:38 | the length of a concatenation is the sum of the lengths |
| Common.Utf16LengthOfPiece | src/pages/CreatePoll.tsx:38 | a contiguous piece of a string is no longer than the string |
| Common.Utf16LengthCounts | src/pages/CreatePoll.tsx:38 | the length equals the character count iff no character lies outside the Basic Multilingual Plane, and twice the count iff all do |
| Common.NatToStringRoundTrip | src/services/api.ts:56 | the decimal rendering of a status code reads back as the same number |
| Api.BaseUrl | src/services/api.ts:1 | the configured address when it is non-empty, otherwise the fixed default; never empty |
| Api.TokenStore.constructor | src/services/api.ts:21 | the slot starts out holding what storage had persisted |
| Api.TokenStore.GetToken | src/services/api.ts:21 | returns the stored token, `None` when there is none |
| Api.TokenStore.SetToken | src/services/api.ts:22 | afterwards the slot holds exactly `t` |
| Api.TokenStore.RemoveToken | src/services/api.ts:23 | afterwards the slot is empty |
| Api.TokenStore.IsAuthenticated | src/services/api.ts:24 | true iff a token is stored and it is non-empty |
| Api.ConfigureHeaders | src/services/api.ts:34-44 | `Configure` sends the request to the base address followed by the endpoint; without caller headers: Content-Type is application/json, and Authorization is `Bearer <token>` iff the token is truthy, with no other keys; caller headers replace the composed object entirely |
| Api.HttpErrorMessageNamesStatus | src/services/api.ts:56 | the fallback error message contains the status code in decimal |
| Api.SettleCases | src/services/api.ts:47-65 | `Settle`, the wrapper's dispatch: success iff a response arrived that is OK, is not a 401, and has a body that parses when it declares JSON; the payload is JSON iff its content type declares JSON; a 401 fails with "Authentication required"; any other non-OK status fails with the server's non-empty message, with `HTTP <status>: <statusText>` when the body does not parse or has none, and with the error that reading `message` of `null` throws when the body is `null` |
| Api.NullErrorBodyMessageNamesNoStatus | src/services/api.ts:56 | the error thrown for a `null` error body contains no digit 4, so it names no 4xx status |
| Api.Request | src/services/api.ts:28-70 | the request goes to the base address followed by the endpoint, with headers built from the token as it is when the call starts; the result is the settled reply; the token is cleared and `/login` is the redirect exactly on a 401, and otherwise the token is untouched |
| Api.StoredToken | src/services/api.ts:80 | the response's token, or "undefined" when the reply has none |
| Api.Authenticate | src/services/api.ts:74-92 | POSTs the credentials; the token is set only when the request succeeds; a failure leaves the token as it was, except that a 401 clears it; `/login` is the redirect exactly on a 401 |
| Api.Login | src/services/api.ts:74-82 | POST to `<base address>/auth/login` with the credentials as body; token effects and the 401 redirect to `/login` as `Authenticate` |
| Api.Register | src/services/api.ts:84-92 | POST to `<base address>/auth/register` with the user data as body; token effects and the 401 redirect to `/login` as `Authenticate` |
| Api.Logout | src/services/api.ts:94-96 | the slot is empty afterwards |
| Api.RouteShape | src/services/api.ts:100-135 | every polls endpoint lies under /polls and names its poll right after /polls/; GET (no method given) iff the call only reads; no call sets its own headers; a body iff the call writes and is not a delete |
| Auth.UserAtStartup | src/contexts/AuthContext.tsx:39-47 | a user iff the stored token is truthy, and then exactly the placeholder user |
| Auth.ResponseUser | src/contexts/AuthContext.tsx:58 | the reply's `user`; absent for a text body |
| Auth.AuthProvider.constructor | src/contexts/AuthContext.tsx:34-35 | no user, loading |
| Auth.AuthProvider.View | src/contexts/AuthContext.tsx:89-96 | `isAuthenticated` iff a user is set; user and loading are passed through |
| Auth.AuthProvider.Initialize | src/contexts/AuthContext.tsx:37-50 | the user becomes `UserAtStartup` of the stored token when that gives a user, otherwise stays as it was; loading has ended |
| Auth.AuthProvider.Login | src/contexts/AuthContext.tsx:52-66 | success sets the user to the reply's user and stores its token; failure keeps the user and passes the error on; a 401 clears the token and sends the page to `/login`; loading has ended in both cases |
| Auth.AuthProvider.Register | src/contexts/AuthContext.tsx:68-82 | the same as `Login`, for registration, the 401 redirect included |
| Auth.AuthProvider.Logout | src/contexts/AuthContext.tsx:84-87 | no user and no token afterwards, whatever the state before, so logging out twice ends where logging out once does |
| Auth.UseAuth | src/contexts/AuthContext.tsx:21-27 | the context value iff a provider is present, otherwise the "must be used within an AuthProvider" error |
| RouteGuard.Decide | src/components/ui/ProtectedRoute.tsx:23-37 | spinner iff loading; a redirect iff not loading and not authenticated, and it goes to /login carrying the current location as `from` and replacing the history entry; the children iff not loading and authenticated |
| RouteGuard.GuardAfterStartup | src/components/ui/ProtectedRoute.tsx:27-36 | after start-up the guard renders the page iff a non-empty token was stored, and otherwise redirects |
| LoginPage.SetField | src/pages/Login.tsx:79-84 | the named field takes the value and the other two keep theirs |
| LoginPage.MissingField | src/pages/Login.tsx:35-43 | no error iff username and password are non-empty and, in registration mode, the email too; the fill-in message iff username or password is empty; the email message iff only the registration email is missing |
| LoginPage.Destination | src/pages/Login.tsx:30 | the recorded path when it is truthy, otherwise /dashboard; never empty |
| LoginPage.ReturnsToGuardedPage | src/pages/Login.tsx:30 | a user the guard sent to /login comes back, after signing in, to the page they left (to /dashboard when the path was empty) |
| LoginPage.ErrorToast | src/pages/Login.tsx:65-73 | "401" or "Invalid credentials" gives the invalid-credentials text; otherwise "400" gives the check-input text; otherwise the message itself, or "Authentication failed" when it is empty; never empty |
| LoginPage.FallbackUnclassified | src/pages/Login.tsx:65 | "Authentication failed" names none of the classified substrings |
| LoginPage.UnauthorizedShownVerbatim | src/pages/Login.tsx:67-72 | a 401 reply fails, and the page shows "Authentication required" as it is |
| LoginPage.AuthRequiredUnclassified | src/pages/Login.tsx:65-73 | "Authentication required" names none of the classified substrings, so it is shown as it is |
| LoginPage.BadRequestClassified | src/pages/Login.tsx:67-70 | a 400 with no server message is reported as bad input, or as bad credentials when its status text names them |
| LoginPage.LoginPage.constructor | src/pages/Login.tsx:16-23 | sign-in mode, empty form, not loading |
| LoginPage.LoginPage.SetMode | src/pages/Login.tsx:130-141 | only the mode changes |
| LoginPage.LoginPage.HandleInputChange | src/pages/Login.tsx:79-84 | only the named field changes |
| LoginPage.LoginPage.HandleSubmit | src/pages/Login.tsx:32-77 | a failed check gives its message, makes no call, starts no page load and changes no session state or token; otherwise exactly the call the mode selects; on success it goes to the destination, replacing the history entry, sets the session user and stores the reply's token; on failure it shows the classified message, the user is unchanged, and the token is cleared by a 401 and otherwise kept; a 401 also starts a full page load of `/login`; loading has ended |
| CreatePollPage.FilledOptionsSpec | src/pages/CreatePoll.tsx:32 | the kept options are exactly those that keep text after trimming, untrimmed and in order; the filter distributes over concatenation |
| CreatePollPage.ValidateAccepts | src/pages/CreatePoll.tsx:27-41 | `Validate` accepts iff the trimmed question is non-empty, at least two options keep text, and the untrimmed question is at most 255 UTF-16 code units long |
| CreatePollPage.QuestionCheckedFirst | src/pages/CreatePoll.tsx:27-36 | a blank question is reported as missing even when the options are missing too |
| CreatePollPage.ValidatedQuestion | src/pages/CreatePoll.tsx:38-47 | the question sent is non-empty, at most 255 UTF-16 code units long, and has no whitespace at either end |
| CreatePollPage.TrimmedQuestionShape | src/pages/CreatePoll.tsx:47 | the trimmed question is no longer, in code units, than the typed one and has no whitespace at either end |
| CreatePollPage.AstralQuestionTooLong | src/pages/CreatePoll.tsx:38-41 | a question of 128 or more characters outside the Basic Multilingual Plane is rejected as too long |
| CreatePollPage.ValidatedOptions | src/pages/CreatePoll.tsx:32-50 | at least two options are sent, each keeping text after trimming, with the chosen visibility |
| CreatePollPage.CreateErrorToast | src/pages/CreatePoll.tsx:68-72 | a message containing "400" gives the check-input text, and any other the generic failure |
| CreatePollPage.ShareOffer | src/pages/CreatePoll.tsx:57-58 | a link is offered iff the poll is private and the reply carries a truthy share link, and then it is `<origin>/share/<link>` |
| CreatePollPage.CreatePollForm.constructor | src/pages/CreatePoll.tsx:16-21 | empty question, exactly two empty options, public, not loading; the 2..10 bound holds |
| CreatePollPage.CreatePollForm.HandleQuestionChange | src/pages/CreatePoll.tsx:78-83 | only the question changes; the bound is kept |
| CreatePollPage.CreatePollForm.HandleOptionChange | src/pages/CreatePoll.tsx:85-92 | only the option at the index changes; the length, question and visibility stay |
| CreatePollPage.CreatePollForm.AddOption | src/pages/CreatePoll.tsx:94-101 | appends one empty option iff there are fewer than ten, otherwise nothing changes; the 2..10 bound is kept |
| CreatePollPage.CreatePollForm.RemoveOption | src/pages/CreatePoll.tsx:103-111 | with more than two options, drops only the entry at the index and keeps the others in order, otherwise nothing changes; the bound is kept |
| CreatePollPage.CreatePollForm.HandleVisibilityChange | src/pages/CreatePoll.tsx:113-118 | only the visibility changes |
| CreatePollPage.CreatePollForm.HandleSubmit | src/pages/CreatePoll.tsx:23-76 | a rejected form shows its message and sends nothing; an accepted one sends exactly the validated body, goes to /dashboard on success with the share offer, and shows the classified message on failure; the form fields never change |
| ResultsPage.MaxVotes | src/pages/PollResultsView.tsx:79-82 | at least 1, at least every option's votes, and either 1 or attained by some option |
| ResultsPage.TotalPositiveIffSomeVote | src/pages/PollResultsView.tsx:75-78 | `TotalVotes`, the sum of the options' votes, is positive iff some option has a vote |
| ResultsPage.LeadersAreMaxima | src/pages/PollResultsView.tsx:123 | `IsWinning` holds for an option iff the total is positive and no option has more votes, so an all-zero poll has no leader and all tied maxima lead |
| ResultsPage.LeaderExists | src/pages/PollResultsView.tsx:123 | a poll with votes has at least one leading option |
| ResultsPage.ThreeSevenZero | src/pages/PollResultsView.tsx:75-82 | votes 3, 7 and 0 total 10, and only the option with 7 leads |
| ResultsPage.Rows | src/pages/PollResultsView.tsx:121-123 | one row per option, in order, with the option's text, the server's percentage unchanged, and the leading mark iff the option leads |
| ResultsPage.ResultsView.constructor | src/pages/PollResultsView.tsx:25-26 | no results, loading |
| ResultsPage.ResultsView.FetchResults | src/pages/PollResultsView.tsx:28-40 | asks for the poll's results; success stores them; failure goes to /notfound and keeps the previous results; loading has ended |
| DashboardPage.ShareUrlChoice | src/pages/Dashboard.tsx:69-72 | `ShareUrl` has the /share/ form iff the poll is private with a truthy share link, and is then `<origin>/share/<shareLink>`; otherwise it is `<origin>/polls/<id>` |
| DashboardPage.WithoutPollSpec | src/pages/Dashboard.tsx:59 | `WithoutPoll`: after a delete no poll has that id; every other poll stays, in order; the list shrinks by the number of polls with that id; removing again changes nothing |
| DashboardPage.WithoutUniquePoll | src/pages/Dashboard.tsx:59 | deleting an id held by exactly one poll removes exactly that entry |
| DashboardPage.Dashboard.constructor | src/pages/Dashboard.tsx:29-31 | an empty list, loading, nothing being deleted |
| DashboardPage.Dashboard.FetchPolls | src/pages/Dashboard.tsx:37-49 | success replaces the list, failure keeps it; loading has ended |
| DashboardPage.Dashboard.HandleDeletePoll | src/pages/Dashboard.tsx:51-67 | a declined confirmation changes nothing and makes no call; otherwise it deletes that id, drops those polls on success and keeps the list on failure, and no deletion is pending afterwards |
| PollViewPage.BackRoute | src/pages/PollView.tsx:218 | /dashboard iff signed in, / otherwise |
| PollViewPage.Identify | src/pages/PollView.tsx:64-70 | a truthy share link is used first, then a truthy id; with neither the load fails with "No poll identifier provided"; the chosen call only reads |
| PollViewPage.LoadFailureTarget | src/pages/PollView.tsx:82-90 | "401" goes to /login; otherwise "404" goes back; there is no navigation iff neither appears |
| PollViewPage.AuthRequiredStaysPut | src/pages/PollView.tsx:82-90 | the wrapper's 401 message does not move the poll screen |
| PollViewPage.MissingIdentifierStaysPut | src/pages/PollView.tsx:69-90 | missing route parameters do not move the poll screen |
| PollViewPage.NotFoundLeaves | src/pages/PollView.tsx:85-87 | a 404 with no server message always leaves the screen |
| PollViewPage.NullErrorBodyStaysPut | src/pages/PollView.tsx:82-90 | an error answer whose body is `null`, a 404 included, does not move the poll screen |
| PollViewPage.VoteRows | src/pages/PollView.tsx:346-350 | no rows before results arrive; otherwise, per result option and in order, the results screen's row plus a mark iff the poll records that option as the user's vote |
| PollViewPage.AtMostOneUserVote | src/pages/PollView.tsx:350 | with distinct option ids at most one row is marked, and it is the poll's recorded choice |
| PollViewPage.ShownTotal | src/pages/PollView.tsx:156-158 | 0 before results arrive, and the results screen's total afterwards |
| PollViewPage.ShownMax | src/pages/PollView.tsx:159-161 | 1 before results arrive, and the results screen's floored maximum afterwards; always at least 1 |
| PollViewPage.PollView.constructor | src/pages/PollView.tsx:48-53 | no poll, loading, no selection, not voting, results hidden, no results |
| PollViewPage.PollView.FetchResults | src/pages/PollView.tsx:96-104 | asks for the poll's results; success stores them; a failure keeps everything |
| PollViewPage.PollView.FetchPoll | src/pages/PollView.tsx:59-94 | the identified call and then the results call; a loaded poll is stored even when the results fail; results are shown when already visible or when the poll has a vote, and voting is then disabled; a failure keeps the state and navigates by its message; loading has ended |
| PollViewPage.PollView.HandleVote | src/pages/PollView.tsx:106-136 | without a poll or sign-in: no call, goes to /login, nothing changes; success records the vote and the option on the poll (no other poll field changes), reloads the results, shows them and disables voting; failure keeps the poll, the results and their visibility; voting has ended |
| PollViewPage.PollView.ClickVote | src/pages/PollView.tsx:106-136 | a disabled button does nothing; an enabled one votes for the selection, which is non-empty: without a poll or sign-in it makes no call and goes to /login; a failed vote keeps the poll, the results and their visibility; a successful one records the vote on the poll, reloads and shows the results and disables the button; the selection and loading never change |
| PollViewPage.PollView.HandleShare | src/pages/PollView.tsx:138-144 | nothing without a poll; otherwise the same link the dashboard offers for that poll |
| PollViewPage.PollView.SelectOption | src/pages/PollView.tsx:294-296 | the selection takes the value unless the poll already records a vote |

## Left out

- Browser input and output is not modelled. `fetch`, JSON parsing,
  `localStorage`, `window.location`, `navigator.clipboard` and `confirm`
  become parameters and results, as described above. A copy to the
  clipboard that fails only changes a toast.
- Toasts, console output, markup, animation and CSS classes are
  presentation. Toast texts appear only where the logic chooses between
  them. Button captions and the "vote"/"votes" noun are not modelled.
- Date formatting with `toLocaleDateString` is a locale library call.
- React's render scheduling is not modelled. Each handler is one
  sequential step over the component's fields. So `handleDeletePoll` filters
  the list as it is when the step runs, not the list captured by an earlier
  render.
- `pollsAPI.getDashboardPolls`, which the dashboard calls, is not defined in
  src/services/api.ts and is not part of this model. Its outcome is a
  parameter of `DashboardPage.Dashboard.FetchPolls`. The dashboard's extra
  poll fields (`totalVotes`, `ownerUsername`) are not modelled.
- The poll pages take each `pollsAPI` call's settled outcome. The token
  clearing and redirect on a 401 are `Api.Request`'s, proved there, and are
  not repeated on those pages.
- Api.Request: a successful sign-in reply whose body is JSON `null`, which
  makes `response.token` throw, is not modelled.
- Api.SettleCases: a `message` property of an error body that is not a
  string is not modelled; the model holds only string messages. The text of
  the error for a `null` error body is the V8 engine's; other engines word
  it differently.
- ResultsPage.ResultOption: percentages are carried as `real` and are only
  passed through; the client never computes with them.
- CreatePollPage.CreatePollForm.HandleOptionChange: requires an index of an
  existing option. The page calls it only for displayed options. Writing past
  the end of a JavaScript array is not modelled.
- PollViewPage.PollView.SelectOption: requires a poll shown in voting mode,
  because that is the only time the radios exist. The disabled state of the
  radios is modelled as ignoring the change.
- The `maxLength`/`required` attributes of the form inputs are enforced by
  the browser before a submit and are not modelled. The explicit checks in
  the handlers are modelled.
- src/App.tsx (the routing table), Landing, Privacy, NotFound, MyActivity,
  Navigation, MobileNavbar and ThemeContext are not part of this model.
  They hold markup, a theme toggle, active-link tests and a copy of the
  share-link rule covered by `DashboardPage.ShareUrl`.
