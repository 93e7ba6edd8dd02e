# Course catalogue client: session refresh, guards and form validation

This project is a Dafny model of the client-side core of a course-catalogue
web application (React + axios). It has four parts:

- **Refresh** (`refresh.dfy`): the HTTP client's response interceptor. This is
  a single-flight token refresh. The first 401 on a request not yet marked
  `_retry` marks it and posts one refresh call. Later 401s wait in a FIFO
  queue while that call is in flight. When the call settles, every waiter is
  replayed with a `Bearer` header, or rejected with the refresh error (after
  which the logout hook runs), and the flag is cleared in `finally`. This part
  has two layers:
  - a pure state machine: `OnReply`, `OnRefreshSettled`, `Step` and `Run`
    over a `State`, which records the flag, the queue, the `_retry` marks,
    the awaiting initiator and a log of outside effects;
  - a class `Interceptor` whose fields are updated in place. Its methods are
    proved equal to the state machine, and they keep the machine's invariant.
- **Session** (`session.dfy`): the authentication provider's state cells
  (`user`, `accessToken`, `refreshToken`, `loading`) as the class
  `AuthProvider`. It covers the startup probe, `login`, `register`,
  `logout` and the derived `role`.
- **Guards** (`guards.dfy`): the `Protected` and `Guest` route guards, as
  total decisions over the session.
- **Forms** (`register_form.dfy`, `login_form.dfy`, `course_form.dfy`): each
  form's rules, in the order its code checks them, plus:
  - `validateField`: a method that edits a copy of the render-time error map;
  - `handleFieldChange`: when typing triggers validation;
  - `onSubmit`: when the backend call is made;
  - the password-strength meter;
  - the redirect target after sign-in;
  - `normalize` and the edit-mode loading of a course.

Shared pieces:

- `text.dfy`, with JavaScript's string semantics that the rules depend on:
  - `.length` counted in UTF-16 code units;
  - `\s` and `trim`;
  - the regular expression `/\S+@\S+\.\S+/`, proved equivalent to a direct
    description of an e-mail's shape;
  - the lookahead tests, where `.` does not cross a line terminator;
- `options.dfy`: `Option` and the `x || fallback` idiom;
- `validation.dfy`: the error map, the message set and the e-mail rule.

Backend replies, date parsing and the network are parameters of the model.
Side effects on the outside world (the refresh call, the credential hook,
replays, rejections, logout) are recorded as a log of `Action`s.

Retries: only the request whose 401 started the refresh gets
`_retry = true` (src/utils/api.js:43). Waiters are replayed through
`api(original)` without that mark (lines 36-38). So a replayed waiter that
gets a second 401 is treated like a first-time 401: it starts a new refresh,
or queues behind one already in flight. `Refresh.OnlyInitiatorMarked` proves
this.

## Model

| member | source | states |
|---|---|---|
| Options.OrFallback | src/state/AuthContext.jsx:44 | JavaScript's or-fallback on an optional string: the value when it is present and non-empty, otherwise the fallback; the result is non-empty whenever the fallback is |
| Text.Utf16LengthBounds | src/views/Register.jsx:34 | `.length` counts one or two code units per character, and equals the number of characters on text inside the Basic Multilingual Plane |
| Text.TrimStartSpec | src/views/CourseForm.jsx:56 | what trimming the start removes is a blank prefix, and what it keeps is the rest of the string, starting with a non-space |
| Text.TrimEndSpec | src/views/CourseForm.jsx:56 | what trimming the end removes is a blank suffix, and what it keeps is the rest of the string, ending with a non-space |
| Text.TrimSpec | src/views/CourseForm.jsx:56 | `trim()` returns a slice of the input between a blank prefix and a blank suffix, with a non-space at each end; it is empty exactly when the input is all whitespace |
| Text.MatchHasShape | src/views/Register.jsx:43 | any match of `\S+@\S+\.\S+` has a non-space before the "@", no whitespace between "@" and ".", and a non-space after the "." |
| Text.ShapeHasMatch | src/views/Register.jsx:43 | conversely, the shape gives a match, one character wide on each outer side |
| Text.EmailPatternIsShape | src/views/Register.jsx:43 | the unanchored test of `/\S+@\S+\.\S+/` succeeds exactly when the string has that shape somewhere |
| Text.EmailPatternExamples | src/views/Register.jsx:43 | "a@b.c" passes the pattern; "a@b" and "a @b.c" do not |
| Text.LookaheadTestIsContains | src/views/Register.jsx:106-109 | one lookahead `(?=.*[C])` passes exactly when the string contains a character of class C, line breaks included |
| Text.CompositionNeedsAllClasses | src/views/Register.jsx:54 | the three-lookahead test only passes strings containing a lower-case letter, an upper-case letter and a digit |
| Text.CompositionOnOneLine | src/views/Register.jsx:54 | on text without line terminators, the three-lookahead test is exactly "all three classes occur" |
| Text.CompositionStopsAtLineBreak | src/views/Register.jsx:54 | "a\nA1" has all three classes yet fails the test, because `.` does not cross the line break |
| Validation.RecordedFrame | src/views/Register.jsx:28-38 | writing one field's outcome into the copied map changes only that key, and leaves an entry there exactly when the rule failed |
| Validation.RecordedEmpty | src/views/Login.jsx:49-50 | the copied map is empty exactly when the field passed and no other field had an entry |
| Validation.EmailRule | src/views/Register.jsx:40-48 | an e-mail passes exactly when it is non-empty and has the shape; otherwise the message is "required" for the empty value and "invalid" for the rest |
| RegisterForm.NameError | src/views/Register.jsx:31-39 | a name passes exactly when it has at least 2 code units; the empty name is "required", a shorter one "too short" |
| RegisterForm.PasswordError | src/views/Register.jsx:49-59 | a password passes exactly when it has at least 8 code units and passes the three-class test; each failure gets its own message, checked in the code's order |
| RegisterForm.ConfirmError | src/views/Register.jsx:67-75 | the confirmation passes exactly when it is non-empty and equal to the password; "required" when empty, "do not match" otherwise |
| RegisterForm.ValidateField | src/views/Register.jsx:27-80 | the copy holds the field's outcome (a password edit also re-checks a given confirmation), and the return value is true exactly when the field has no entry afterwards |
| RegisterForm.ValidatedMeans | src/views/Register.jsx:27-80 | the field passes exactly when its rule holds; a password edit changes only the password and confirmation entries, and with a confirmation given the confirmation shows an error exactly when the two differ |
| RegisterForm.HandleFieldChange | src/views/Register.jsx:82-101 | typing validates exactly when the value is non-empty or the field already shows an error; a password edit passes the confirmation typed so far; otherwise the map is untouched |
| RegisterForm.Submit | src/views/Register.jsx:125-141 | `register` is called exactly when all four rules pass, which is: name of 2+ units, an e-mail of the right shape, a password of 8+ units with the three classes, and a matching confirmation; the map shown is the confirmation validator's copy |
| RegisterForm.AfterRegister | src/views/Register.jsx:142-147 | on success the form navigates home; on failure it shows the returned message |
| RegisterForm.CountTrue | src/views/Register.jsx:103-111 | the count of satisfied criteria never exceeds their number, and equals it exactly when all hold |
| RegisterForm.PasswordStrength | src/views/Register.jsx:103-111 | the strength is the number of the five criteria the password meets (length 8+, lower, upper, digit, special), so at most 5 |
| RegisterForm.CountFive | src/views/Register.jsx:104-110 | for five criteria, the count is the sum of the five increments |
| RegisterForm.StrengthColor | src/views/Register.jsx:113-117 | error colour up to 2, warning colour at 3, success colour above 3 |
| RegisterForm.StrengthText | src/views/Register.jsx:119-123 | "Weak" up to 2, "Good" at 3, "Strong" above 3 |
| RegisterForm.AcceptedPasswordIsStrong | src/views/Register.jsx:49-59 | a password the validator accepts meets at least four criteria, so the meter shows "Strong" in the success colour |
| LoginForm.PasswordError | src/views/Login.jsx:38-46 | a sign-in password passes exactly when it has at least 6 code units; no composition rule |
| LoginForm.ValidateField | src/views/Login.jsx:25-51 | the copy holds the field's outcome, and the return value is true exactly when the whole copy is empty |
| LoginForm.ValidatedEmpty | src/views/Login.jsx:25-51 | the copy is empty exactly when the field passed and no other field had an entry; an unknown field name changes nothing |
| LoginForm.HandleFieldChange | src/views/Login.jsx:53-64 | typing validates exactly when the new value is non-empty; otherwise the map is untouched |
| LoginForm.Submit | src/views/Login.jsx:66-77 | `login` is called exactly when the render-time map was empty and both the e-mail and the password pass; the map shown is the password validator's copy |
| LoginForm.RedirectTarget | src/views/Login.jsx:23 | the page the guard sent the visitor from, or "/" when there is none; never empty |
| LoginForm.AfterLogin | src/views/Login.jsx:78-83 | on success the form navigates to the redirect target, replacing history; on failure it shows the message |
| LoginForm.SignInReturnsToProtectedPage | src/views/Login.jsx:80 | a visitor `Protected` turned away returns to the page they asked for after signing in |
| CourseForm.TitleError | src/views/CourseForm.jsx:55-63 | a title passes exactly when it is not all whitespace and has at least 3 code units (untrimmed); a blank title is "required" |
| CourseForm.InstructorError | src/views/CourseForm.jsx:64-70 | an instructor passes exactly when not all whitespace |
| CourseForm.SeatsError | src/views/CourseForm.jsx:71-77 | seats pass exactly when at least 1 |
| CourseForm.ValidateField | src/views/CourseForm.jsx:51-102 | the copy holds the field's outcome (a date that passes clears both date entries), and the return value is true exactly when the field has no entry afterwards |
| CourseForm.ValidatedMeans | src/views/CourseForm.jsx:51-102 | each field passes exactly when its rule holds (a date fails only when both are given and out of order); only that field's entry, or the two date entries, change |
| CourseForm.HandleFieldChange | src/views/CourseForm.jsx:104-114 | the form takes the new value; the field is validated, against the rendered form, exactly when the value is non-empty or the field already shows an error |
| CourseForm.Submit | src/views/CourseForm.jsx:116-136 | saving proceeds exactly when the title is non-blank with 3+ units, the instructor is non-blank, there is at least 1 seat, and any two given dates are in order; the map shown is the last validator's copy |
| CourseForm.Normalize | src/views/CourseForm.jsx:153-158 | the payload has every field, with seats as a number, and drops an empty start or end date; loading it back gives the same form |
| CourseForm.Loaded | src/views/CourseForm.jsx:36-43 | each text field, the seats and each date are taken from the stored course when present (with the right type), and a missing one reads as "", 0 or an empty date; an empty course gives the blank form |
| Session.RoleOf | src/state/AuthContext.jsx:80 | the user's role when signed in with a non-empty role, otherwise "guest"; never empty |
| Session.Outcome | src/state/AuthContext.jsx:37-45 | success exactly on an ok reply; a failure carries the server's message or the fallback, never empty |
| Session.AuthProvider.Role | src/state/AuthContext.jsx:80 | the provider's role is its user's role when someone is signed in with a non-empty role, otherwise "guest"; never empty |
| Session.AuthProvider.constructor | src/state/AuthContext.jsx:14-17 | the provider starts signed out, with no tokens and not loading |
| Session.AuthProvider.Probe | src/state/AuthContext.jsx:19-28 | on success the startup probe adopts the reply's user and the cookie marker; a failure changes nothing |
| Session.AuthProvider.Login | src/state/AuthContext.jsx:34-49 | on success the reply's user and the cookie marker are adopted, otherwise the session is unchanged; the result reports the outcome; loading ends false |
| Session.AuthProvider.Register | src/state/AuthContext.jsx:51-66 | the same transitions as login, with the "Register failed" fallback |
| Session.AuthProvider.Logout | src/state/AuthContext.jsx:68-75 | the user and both tokens are cleared whether or not the backend call failed |
| Guards.Protected | src/components/Protected.jsx:5-11 | no user: go to sign-in, remembering the location; a wrong role: go home; it renders exactly for a signed-in user whose role matches (or when no role is required) |
| Guards.Guest | src/components/Guest.jsx:5-9 | a signed-in user is sent home; it renders exactly when nobody is signed in |
| Guards.SignInCheckedFirst | src/components/Protected.jsx:8-9 | without a user the required role makes no difference, and the redirect is to "/login" |
| Guards.GuestIgnoresRole | src/components/Guest.jsx:6-8 | `Guest` depends only on whether someone is signed in |
| Guards.GuardsPartitionSessions | src/components/Protected.jsx:8-10 | for every session, exactly one of `Guest` and a role-free `Protected` renders its children |
| Refresh.CountAppend | src/utils/api.js:27-68 | counts over a concatenated log add up |
| Refresh.ReplaysInOrder | src/utils/api.js:54 | on success every waiter is replayed, in queue order, with the header "Bearer cookie" |
| Refresh.RejectionsInOrder | src/utils/api.js:58 | on failure every waiter is rejected, in queue order, with the refresh error |
| Refresh.WaitersCountNothing | src/utils/api.js:54-58 | settling waiters posts no refresh, ends none and calls no logout |
| Refresh.OnReply | src/utils/api.js:28-44 | anything but a first 401 passes through unchanged; a first 401 queues while a refresh is in flight, and otherwise marks the request, sets the flag and posts one refresh call |
| Refresh.SettleCounts | src/utils/api.js:52-64 | settling ends exactly one refresh, posts none, and calls logout exactly once on failure and never on success |
| Refresh.OnRefreshSettled | src/utils/api.js:52-64 | after settling, the flag is clear, the queue is empty and no initiator remains; success logs credential, replays and re-issue; failure logs rejections, logout and the initiator's rejection |
| Refresh.RunAppend | src/utils/api.js:27-68 | running two event sequences one after the other is running their concatenation |
| Refresh.InitialInv | src/utils/api.js:24-25 | the initial state satisfies the invariant |
| Refresh.OnReplyKeepsInv | src/utils/api.js:31-44 | handling a reply preserves the invariant: the queue is empty whenever idle, an in-flight refresh has one marked initiator, no waiter is marked, and refresh calls outnumber settlements by exactly the one in flight |
| Refresh.OnRefreshSettledKeepsInv | src/utils/api.js:52-64 | settling preserves the invariant |
| Refresh.StepKeepsInv | src/utils/api.js:27-68 | every event preserves the invariant |
| Refresh.RunKeepsInv | src/utils/api.js:24-68 | every reachable state satisfies the invariant, so at most one refresh call is ever unsettled |
| Refresh.ParkedBehindRefresh | src/utils/api.js:32-41 | while a refresh is in flight, first-time 401s go to the end of the queue in arrival order, and nothing is posted |
| Refresh.SingleFlight | src/utils/api.js:31-51 | from idle, a burst of first-time 401s posts exactly one refresh, for the first request, and queues the rest in order |
| Refresh.BurstThenRefreshed | src/utils/api.js:52-56 | a burst followed by success hands "cookie" to the credential hook, replays every waiter in order, re-issues the initiator, and leaves the client idle |
| Refresh.BurstThenRefreshFailed | src/utils/api.js:57-61 | a burst followed by failure rejects every waiter in order with the refresh error, calls logout exactly once, rejects the initiator with the same error, and leaves the client idle |
| Refresh.OnlyInitiatorMarked | src/utils/api.js:36-43 | after a successful refresh, a second 401 on the initiator is rejected as is, while a second 401 on a replayed waiter posts a new refresh |
| Refresh.Interceptor.constructor | src/utils/api.js:24-25 | the interceptor starts idle with an empty queue, and satisfies the invariant |
| Refresh.Interceptor.HandleResponse | src/utils/api.js:28-44 | the fields are updated exactly as `OnReply` prescribes, and the invariant is kept |
| Refresh.Interceptor.HandleRefreshSettled | src/utils/api.js:52-64 | the fields are updated exactly as `OnRefreshSettled` prescribes, the flag ends clear, and the invariant is kept |
| Refresh.ResolveAll | src/utils/api.js:54 | the `forEach` resolving the waiters produces exactly the in-order replays |
| Refresh.RejectAll | src/utils/api.js:58 | the `forEach` rejecting the waiters produces exactly the in-order rejections |

## Left out

- Rendering: JSX, styling, icons and the show-password toggles are not modelled.
- Transport: axios, base URLs, request bodies and cookies are not modelled. Each backend call's outcome is a parameter (`Reply`).
- Concurrency: promise and microtask interleaving is not modelled. The interceptor is driven by a sequence of events, each run to completion, which matches JavaScript's single thread. Waiters' replays are logged in `forEach` order; their own responses arrive later as further events. A waiter's `Replayed` action records that it was resolved with the new header. Its actual re-send runs in a later `.then` callback, after the initiator's re-issue and the `finally`; the model does not capture that order.
- Hooks: the hooks bound through `bindAuth` are assumed to be bound. The optional calls `setAccessToken?.()` and `logout?.()` always happen in the model.
- The request interceptor (`(config) => config`) is the identity and is not modelled.
- Dates: dates are day numbers, so `new Date(...)` parsing, time zones and invalid dates are not modelled. Edit-mode loading takes the stored dates as already cut to days (`slice(0, 10)`).
- Loading a course: stored text fields are assumed to be strings. `c.title || ""` keeps any truthy value, but the model reads a present non-text value as "".
- Seats: the seats input is an integer, so `parseInt` and `Number()` conversions of text are not modelled.
- Confirmation: `confirmValue = null` in the registration validator is modelled as "". Both are falsy there.
- Messages: the error map holds an enumeration of messages (`Validation.Message`). `Validation.Display` gives each one's exact text. Truthiness of `errors[name]` is modelled as key presence, because every text is non-empty. That non-emptiness is not proved as a lemma.
- General error: the `setError("")` clearing of the form's general error, and the `saving` flag, are not modelled.
- Loading: `loading` is modelled only by its final value. The window while it is `true` falls between events and is not visible.
- Arguments: the e-mail, password and name passed to `login` and `register` are not modelled, because the backend that checks them is outside the model.
- Session effects: the no-op effect on the session cells, `useAuth`'s error outside a provider, and the memoised context value are not modelled.
- Text: JavaScript strings are modelled as sequences of Unicode scalar values. Lone surrogates cannot be written.
