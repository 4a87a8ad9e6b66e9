# Rankly IQ client state, modelled in Dafny

Rankly IQ is a single-page dashboard for Iraqi small-business owners. Sign-in, persistence and
text generation are done by a hosted auth/storage gateway and a generative-AI service; what the
client itself decides is modelled here:

- **Checklist (SOP) store** (`checklist.dfy`, module `Checklist`): the six seed tasks, loading
  from the single local-storage slot `rankly_sop_tasks`, `toggleTask` (flip and persist), the
  integer progress percentage, and the grouping of tasks under four fixed categories.
- **Application shell** (`shell.dfy`, module `Shell`): the `loading` / `session` / `activeTab`
  state, the initial session check, the auth-change handler (a sign-out also clears the
  checklist slot), and the choice of screen.
- **Credential form** (`auth.dfy`, module `Auth`): the re-entrancy and cooldown guard, the
  60-tick countdown, the trimmed e-mail sent to the gateway, the ordered classification of gateway
  failures, the mode toggle and the submit-disable condition.
- **Business registry** (`businesses.dfy`, module `Businesses`): fetch, guarded add that
  prepends the inserted row and resets the form, delete that filters on success, and the form
  defaults.
- Helpers: `wrappers.dfy` (`Option`), `text.dfy` (`includes`, `toLowerCase`, `trim` on
  `seq<char>`).

Each gateway call is a method parameter carrying an abstract reply (`SessionCheck`, `Reply`,
`Option<seq<Business>>`, `DeleteReply`). `BeginSubmit` and `AddRequest` return the request they
send; `CheckSession`, `Fetch` and `Delete` take only the reply, and the query they issue is left out.
An asynchronous handler with one suspension point is split into the part before the call and the
part after the reply (`BeginSubmit`/`FinishSubmit`, `AddRequest`/`FinishAdd`); every event is one
atomic step. The browser's local storage is the class `Checklist.LocalStorage`, shared by the shell
and the checklist screen. JSON serialisation of the slot is the identity.

The model follows the code where it does less than a reader might expect:
- the e-mail is trimmed but not lower-cased (components/Auth.tsx:31, 37);
- loading the checklist takes the slot as it is; the code has no fallback for a corrupt slot
  (`JSON.parse` is unguarded, components/SOPManager.tsx:19), and loading never writes the seed back;
- the tab set has five members and no profile tab (App.tsx:16);
- `handleAuth` itself has no empty-field check: only the disabled submit button and the `required`
  inputs stop an empty submission (components/Auth.tsx:23, 136), so `BeginSubmit` guards on
  `loading` and `cooldown` only and `SubmitDisabled` is modelled separately.

## Model

| member | source | states |
|---|---|---|
| Checklist.SeedShape | components/SOPManager.tsx:4-11 | the seed has six tasks with ids "1".."6", pairwise distinct, none completed |
| Checklist.ChecklistManager.constructor | components/SOPManager.tsx:14 | the task list starts empty |
| Checklist.ChecklistManager.Load | components/SOPManager.tsx:16-22 | tasks become the persisted list if the slot is present, else the seed; the slot is left untouched |
| Checklist.Toggled | components/SOPManager.tsx:26 | same length and order; each task keeps id, category, title, description; `completed` is inverted exactly on tasks with the given id |
| Checklist.ToggledTwice | components/SOPManager.tsx:26 | toggling the same id twice gives back the original list |
| Checklist.ToggledUnknown | components/SOPManager.tsx:26 | toggling an id no task has gives back the same list |
| Checklist.ChecklistManager.ToggleTask | components/SOPManager.tsx:25-29 | tasks become the toggled list and the slot holds exactly that list afterwards, also for an unknown id |
| Checklist.ToggleThenRemount | components/SOPManager.tsx:16-28 | a fresh checklist over the same storage loads the toggled list |
| Checklist.CompletedCount | components/SOPManager.tsx:31 | the completed count is at most the length; 0 iff no task is completed; the length iff all are |
| Checklist.CompletedCountConcat | components/SOPManager.tsx:31 | the count of a concatenation is the sum of the counts, so with the one-task case it is the number of completed tasks |
| Checklist.PercentDone | components/SOPManager.tsx:31 | progress is 0 for the empty list, lies in 0..100, and brackets 100·c/n within half a point (round half up) |
| Checklist.PercentDoneIsNearest | components/SOPManager.tsx:31 | the rounding bracket determines the percentage: any integer in it equals the computed one |
| Checklist.InCategory | components/SOPManager.tsx:54 | a group holds exactly the tasks of its category |
| Checklist.InCategoryConcat | components/SOPManager.tsx:54 | the group filter distributes over concatenation, so groups keep the list order |
| Checklist.LabelInjective | components/SOPManager.tsx:51 | the four Arabic category labels are distinct, so matching on the label is matching on the category |
| Checklist.Groups | components/SOPManager.tsx:51-54 | four groups headed by the labels in display order; each holds exactly the listed tasks whose category label is its header |
| Checklist.GroupsPartition | components/SOPManager.tsx:51-54 | the four groups together hold every task exactly as often as the list does (as multisets), hence as many entries as the list |
| Checklist.GroupOfTask | components/SOPManager.tsx:51-54 | a task appears in the displayed group of its own category and in no other |
| Checklist.LocalStorage.SetItem | components/SOPManager.tsx:28 | the slot holds the given list |
| Checklist.LocalStorage.RemoveItem | App.tsx:43 | the slot is absent |
| Shell.App.constructor | App.tsx:14-16 | initial state: loading, no session, dashboard tab |
| Shell.AfterCheck | App.tsx:20-29 | the check ends loading and keeps the tab; the session becomes the returned one, or stays as it was on a throw |
| Shell.App.CheckSession | App.tsx:20-29 | the state becomes `AfterCheck` of the old state and the gateway's answer |
| Shell.CheckResolvesLoading | App.tsx:20-29 | the check always clears loading; a throw keeps the session; the screen is then the sign-in screen or the active page |
| Shell.App.OnAuthStateChange | App.tsx:34-45 | the state becomes `AfterAuthChange`; the checklist slot is removed on a sign-out and untouched otherwise |
| Shell.AfterAuthChange | App.tsx:34-45 | every notification sets the session it carries and clears loading; the tab returns to the dashboard exactly on sign-in and sign-out |
| Shell.SourcesCommute | App.tsx:20-45 | the initial check and a notification with the same session give the same state in either order |
| Shell.SignOutThenSignIn | App.tsx:38-44 | after a sign-out the sign-in screen shows; a following sign-in opens the dashboard |
| Shell.SignOutThenOpenChecklist | App.tsx:41-44 | after a sign-out the session is gone, the tab is the dashboard, and a new checklist loads the seed |
| Shell.App.SetActiveTab | App.tsx:16 | only the tab changes |
| Shell.Render | App.tsx:53-82 | loader iff loading; sign-in screen iff not loading and no session; otherwise the page of the active tab |
| Shell.PageForInjective | App.tsx:78-82 | each tab has its own page, distinct from the loader and sign-in screens |
| Auth.AuthForm.constructor | components/Auth.tsx:6-11 | not loading, empty fields, sign-in mode, no banner, no cooldown |
| Auth.AuthForm.Tick | components/Auth.tsx:14-19 | one tick takes the cooldown down by one while positive; nothing else changes |
| Auth.Countdown | components/Auth.tsx:14-19 | one tick decrements a positive counter by exactly one and leaves 0 at 0 |
| Auth.AfterTicksCountsDown | components/Auth.tsx:14-19 | k ticks take the counter to max(c - k, 0) |
| Auth.CooldownExpires | components/Auth.tsx:14-19 | from 60 the counter is 0 exactly after 60 or more ticks |
| Auth.SubmitBlocked | components/Auth.tsx:136 | the button is disabled whenever the handler's own guard would refuse; enabled means both fields are filled; with both filled, disabled exactly while loading or cooling down |
| Auth.RateLimitBlocksForAMinute | components/Auth.tsx:136 | after a rate-limit answer, with both fields filled, submit is disabled for exactly the next 59 ticks |
| Auth.AuthForm.BeginSubmit | components/Auth.tsx:21-38 | while loading or cooling down: no request, no change; otherwise loading set, banner cleared, request returned |
| Auth.DoubleSubmit | components/Auth.tsx:23 | a second submission while the first is in flight sends nothing |
| Auth.RequestFor | components/Auth.tsx:29-42 | sign-in in login mode, else sign-up; the e-mail is the trimmed input, the password is unchanged, and a sign-up redirects to the page's origin |
| Auth.AuthForm.FinishSubmit | components/Auth.tsx:43-69 | loading cleared; banner and cooldown as the reply calls for; after a rate-limit failure inputs and submit are disabled; fields and mode unchanged |
| Auth.Settled | components/Auth.tsx:43-66 | no banner iff the call succeeded with login or with a session; the confirmation note iff a sign-up succeeded without a session; failures are classified |
| Auth.CooldownAfter | components/Auth.tsx:55-57 | the cooldown becomes 60 on a rate-limit failure and stays as it was on every other reply |
| Auth.Classify | components/Auth.tsx:52-66 | the chosen kind fits the error, and no fitting kind comes earlier in the order rate-limit, network, credentials, unconfirmed, raw/generic |
| Auth.ClassifyIsFirstFit | components/Auth.tsx:55-66 | the first-fit description determines the classification uniquely |
| Auth.StatusWins | components/Auth.tsx:55 | status 429 is a rate limit whatever the message |
| Auth.UnconfirmedAnyCase | components/Auth.tsx:52-63 | the gateway's "Email not confirmed", capitalised, is classified as unconfirmed whenever the status is not 429 |
| Auth.UnconfirmedMatchesOnlyItsRule | components/Auth.tsx:55-62 | that lowered message contains none of the rate-limit, network or credential patterns, and does contain the unconfirmed one |
| Auth.KelvinSignLowered | components/Auth.tsx:52-58 | a message spelt with U+212A KELVIN SIGN, which lower-cases to 'k', is classified as a network failure when the status is not 429 |
| Auth.NetworkErrorMatchesNoEarlierRule | components/Auth.tsx:55-58 | "network error" contains neither rate-limit pattern and does contain the network one |
| Auth.AuthForm.EditEmail | components/Auth.tsx:112-117 | typing changes the e-mail except while the input is disabled |
| Auth.AuthForm.EditPassword | components/Auth.tsx:124-129 | typing changes the password except while the input is disabled |
| Auth.AuthForm.ToggleMode | components/Auth.tsx:151-155 | outside loading, the mode flips and the banner is cleared; while loading nothing changes |
| Text.ToLower | components/Auth.tsx:52 | same length; each of A–Z becomes its lower-case letter, U+212A KELVIN SIGN becomes 'k', every other character is kept; no A–Z left |
| Text.NotContains | components/Auth.tsx:55-62 | a pattern is absent from a message when one of its characters appears nowhere it would have to stand |
| Text.ContainsLowered | components/Auth.tsx:52-63 | a pattern already in lower case that occurs in a message still occurs after lower-casing it |
| Text.Trim | components/Auth.tsx:31 | the trimmed e-mail is a slice of the input, no longer than it, with only white space outside it and no white space at its ends |
| Text.TrimOfUnique | components/Auth.tsx:31 | that description fits only one string |
| Text.TrimIdempotent | components/Auth.tsx:37 | trimming twice is trimming once |
| Businesses.BusinessManager.constructor | components/BusinessManager.tsx:8-14 | empty list, loading, form hidden, name and city empty, score 50 |
| Businesses.BusinessManager.Fetch | components/BusinessManager.tsx:20-29 | the list becomes the returned rows when present and is kept otherwise; loading is cleared |
| Businesses.BusinessManager.AddRequest | components/BusinessManager.tsx:31-43 | nothing is sent with an empty name or city; otherwise the form's row for the current user |
| Businesses.BusinessManager.FinishAdd | components/BusinessManager.tsx:45-51 | a returned row goes to the head of the list and the form is reset to '', '', 50 and hidden; without a row nothing changes |
| Businesses.Added | components/BusinessManager.tsx:46 | the returned row first, then the previous rows in order, length plus one |
| Businesses.AddedMatchesAsWritten | components/BusinessManager.tsx:45-46 | on a non-empty insert answer the model's list and the source's list agree entry by entry |
| Businesses.EmptyInsertLeavesHole | components/BusinessManager.tsx:45-46 | the source's list after an empty insert answer starts with `undefined` |
| Businesses.BusinessManager.Delete | components/BusinessManager.tsx:54-63 | on success the list becomes the rows without that id; on failure it is unchanged |
| Businesses.Without | components/BusinessManager.tsx:61 | the result holds exactly the rows whose id differs |
| Businesses.WithoutConcat | components/BusinessManager.tsx:61 | the filter distributes over concatenation, so the kept rows stay in order |
| Businesses.WithoutAbsent | components/BusinessManager.tsx:61 | deleting an id no row has keeps the list |
| Businesses.WithoutIdempotent | components/BusinessManager.tsx:61 | deleting the same id twice is deleting it once |
| Businesses.AddThenDelete | components/BusinessManager.tsx:46-61 | adding a row with a new id and deleting that id restores the list |
| Businesses.SliderValue | components/BusinessManager.tsx:108-113 | the slider value lies in 0..100 and equals the position when that is in range |
| Businesses.BusinessManager.SlideScore | components/BusinessManager.tsx:108-113 | the score becomes the slider value and stays within 0..100 |
| Businesses.BusinessManager.ToggleForm | components/BusinessManager.tsx:73 | the form visibility flips; nothing else changes |
| Businesses.BusinessManager.EditName | components/BusinessManager.tsx:88 | only the name changes |
| Businesses.BusinessManager.EditCity | components/BusinessManager.tsx:99 | only the city changes |

## Left out

- Gateway internals (client construction, `getSession`, `signInWithPassword`, `signUp`, table
  queries): external services; only their replies are modelled, as method parameters.
- The auth-change subscription and its teardown (App.tsx:47-49), the real `setTimeout`
  scheduling and asynchronous interleaving: each event is one atomic step and the timer is the
  explicit `Tick` method.
- JSON serialisation of the checklist: modelled as the identity. A corrupt slot would make
  `JSON.parse` throw; the model has no such state.
- Checklist.PercentDone: computes the exact rational round-half-up; floating-point rounding of
  `(c / n) * 100` is not modelled.
- Text.ToLower: maps only A–Z and U+212A KELVIN SIGN, the characters whose lower case is a single
  ASCII letter; every other character is kept. JavaScript lowers other capitals to non-ASCII
  letters, which the ASCII patterns of the classification cannot match, and U+0130 to 'i' followed
  by U+0307, which could only complete a pattern ending in 'i' or continuing with U+0307; none of
  the six patterns does either.
- The queries behind `CheckSession`, `Fetch` and `Delete`: the session lookup, the fetch's
  `user_id` filter and newest-first `created_at` order (components/BusinessManager.tsx:21-25) and
  the delete's `id` match (components/BusinessManager.tsx:55-58) run in the gateway; the model
  takes the rows or the outcome they return.
- Auth error texts: the banner is modelled as a `Notice` naming which message is shown, not as the
  Arabic text itself; the gateway's own message is kept verbatim in `Raw`.
- The pre-submit `preventDefault`, `console.error` logging, JSX, styling, alerts and clipboard
  access.
- The AI reply and post generators, the Gemini client, the dashboard, the profile page and the
  layout (its logout is a gateway sign-out followed by the same slot removal the sign-out handler
  performs): presentation or calls into the AI service.
- `session.user.email || ''` passed to the layout: the layout is not modelled.

## Findings

| source | as written | input that shows it | evidently intended | confidence | as-written member | corrected member |
|---|---|---|---|---|---|---|
| components/BusinessManager.tsx:45-46 | `if (data)` accepts an empty array and `[data[0], ...businesses]` then puts `undefined` at the head of the list, which the list rendering dereferences (`b.business_name[0]`), and the form is reset | an insert answered with `data = []` and no error | only prepend and reset when a row came back (`data && data[0]`) | low; not executed; depends on whether the gateway can answer a successful insert with no rows | Businesses.EmptyInsertLeavesHole | Businesses.BusinessManager.FinishAdd |
