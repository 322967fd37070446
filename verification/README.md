# Hayat triage dashboard: a Dafny model of the queue and session core

Hayat is a single-page mock-up of an emergency-department triage dashboard.
Under its presentation layer is a small, sequential core. This project models
that core and proves properties of it:

- **Patient queue views** (`components/Dashboard.tsx`, `components/QueueTable.tsx`).
  The queue panel filters patients by triage level and by a search string, then
  orders them P1 < P2 < … < P5. The header shows three statistics: patients
  waiting, critical patients (P1 or P2), and the mean P3 wait in whole minutes.
  Each patient's wait is rendered as `m:ss` or `h:mm:ss`. The queue table shows
  a level badge and colours the SpO2 and heart-rate readings when they cross
  their alert thresholds.
- **Application state** (`App.tsx`). The once-per-second wait tick. Admission of
  a triaged patient: the new record goes to the front of the queue, with its
  risk score, predicted wait and a `PT-nnnn` identifier. Sign-in success and
  logout. Routing between views, including the administrator-panel role gate.
  The right-to-left language test.
- **Mock authentication** (`services/authService.ts`). Email lookup over the
  fixed table of demo accounts, one shared demo password, and an eight-hour
  token payload. Reading the signed-in user from the browser's key/value
  store, and logout, which removes the two session keys.

Layout, one module per file:

| file | module | contents |
|---|---|---|
| `types.dfy` | `Types` | triage level with rank and code, role, view, language, patient, user |
| `text.dfy` | `Text` | ASCII lower-casing, substring search, decimal numerals and reading them back |
| `wait_format.dfy` | `WaitFormat` | the wait formatter, a reader for its output, the round trip |
| `queue_order.dfy` | `QueueOrder` | stable ordering by triage level: sorted, permutation, stable, unique closed form |
| `dashboard.dfy` | `DashboardView` | search/level filter, the panel list, header statistics |
| `queue_table.dfy` | `QueueTable` | table rows and total, level badges, vital-sign alerts |
| `auth.dfy` | `Auth` | demo accounts, login, token payload, key/value store, current user, logout |
| `app.dfy` | `App` | shell state, tick, admission, session, routing, text direction, demo queue |

Inputs that come from outside the program are parameters:

- the current time `now`;
- the random draw behind a patient identifier, as `draw` in 0..8999;
- the triage reply, as `TriageReply`;
- the decoder for the stored user record, as `parse`. It may yield no user, as `JSON.parse("null")` does;
- the encoded user record, as `userJson`;
- the arrival timestamps.

## Model

| member | source | states |
|---|---|---|
| `Types.CodeOrderIsRankOrder` | components/Dashboard.tsx:64 | Comparing the codes "P1".."P5" as text orders two levels exactly as their ranks do, so sorting by code is sorting by urgency |
| `Text.Contains` | components/Dashboard.tsx:61 | `includes`: true iff the query occurs as a contiguous block at some index of the string |
| `Text.DigitsRoundTrip` | components/Dashboard.tsx:70 | The decimal numeral a template literal writes for a natural number reads back as that number |
| `WaitFormat.Decompose` | components/Dashboard.tsx:67-69 | Hours, minutes and seconds satisfy h*3600 + m*60 + s = seconds, with m and s below 60 |
| `WaitFormat.DecomposeUnique` | components/Dashboard.tsx:67-69 | Any split into hours, minutes below 60 and seconds below 60 that sums to the wait is the formatter's split |
| `WaitFormat.ShortForm` | components/Dashboard.tsx:70 | Below 3600 s the output is unpadded minutes, ':', two-digit seconds (`m:ss`), with no hour field |
| `WaitFormat.LongForm` | components/Dashboard.tsx:70 | From 3600 s on the output is hours, ':', two-digit minutes, ':', two-digit seconds (`h:mm:ss`) |
| `WaitFormat.SecondsField` | components/Dashboard.tsx:69-70 | The last two characters are always digits denoting seconds mod 60, preceded by ':' |
| `WaitFormat.FifteenMinutes` | components/Dashboard.tsx:66-71 | A 900-second wait is shown as "15:00" |
| `WaitFormat.FormatRoundTrip` | components/Dashboard.tsx:66-71 | Reading a rendered wait back as `m:ss` or `h:mm:ss` gives the original number of seconds |
| `WaitFormat.FormatInjective` | components/Dashboard.tsx:66-71 | Two different waits never render to the same text |
| `QueueOrder.SortByPriority` | components/QueueTable.tsx:24 | The ordered queue is non-decreasing by level and a permutation (same multiset) of the input |
| `QueueOrder.SortIsStable` | components/Dashboard.tsx:64 | Within each level, patients keep their order from the input, as the runtime's stable sort does |
| `QueueOrder.SortIsGrouping` | components/Dashboard.tsx:64 | Any list that is sorted by level and keeps each level's order equals all P1s, then P2s, …, then P5s, and the sort returns exactly that |
| `QueueOrder.SortIdempotent` | components/QueueTable.tsx:24 | Sorting an already sorted queue changes nothing |
| `DashboardView.Select` | components/Dashboard.tsx:60-63 | Each patient occurs in the filtered list as often as in the queue if it matches both the search and the level filter, and not at all otherwise. The filtered list is a subsequence of the queue, so it keeps queue order |
| `DashboardView.FilteredPatients` | components/Dashboard.tsx:60-64 | Every listed patient matches the level filter ('all' or equal level) and the search (lower-cased name contains the lower-cased query, or the id contains the query). Every matching patient is listed, with its multiplicity. The list is sorted by level |
| `DashboardView.FilteredKeepsQueueOrder` | components/Dashboard.tsx:64 | Within each level, the panel lists the filter's patients in the filter's order, and that list is a subsequence of the queue's patients of that level |
| `DashboardView.NoFilterShowsAll` | components/Dashboard.tsx:60-64 | With an empty search and 'all' levels, the panel shows the whole queue in level order |
| `DashboardView.CriticalPatients` | components/Dashboard.tsx:39 | The critical filter keeps each P1 or P2 patient as often as it occurs in the queue, and no other patient |
| `DashboardView.CriticalIsP1AndP2` | components/Dashboard.tsx:39 | The critical count equals the number of P1 patients plus the number of P2 patients |
| `DashboardView.LevelsPartitionQueue` | types.ts:2 | Every patient has exactly one of the five levels, so the five level counts add up to the number of waiting patients |
| `DashboardView.FloorDiv` | components/Dashboard.tsx:45 | `Math.floor` of a non-negative quotient is the largest q with d*q ≤ a |
| `DashboardView.ComputeStats` | components/Dashboard.tsx:38-48 | waiting = number of patients. critical = P1 count + P2 count, and critical ≤ waiting. The mean P3 wait is 0 when there is no P3 patient. Staff load is the constant 85 |
| `DashboardView.AvgWaitIsFlooredMean` | components/Dashboard.tsx:40-45 | The mean P3 wait is the floor of (P3 wait total) / (60 * max(1, P3 count)): the largest m with 60 * m * max(1, count) ≤ total |
| `QueueTable.SortedPatients` | components/QueueTable.tsx:24 | The table rows are sorted by level, are a permutation of the patients, and keep each level's order |
| `QueueTable.RowsMatchTotal` | components/QueueTable.tsx:24-30 | The "total active" figure equals the number of rows and does not depend on the order of the list |
| `QueueTable.PriorityClasses` | components/QueueTable.tsx:13-22 | Total over all strings: a level code gets a non-default badge, and every other string gets the grey default |
| `QueueTable.BadgesDistinct` | components/QueueTable.tsx:13-22 | The five levels get five different badge styles |
| `QueueTable.SpO2Class` | components/QueueTable.tsx:63 | SpO2 is shown in the alert colour iff it is below 92 |
| `QueueTable.HrClass` | components/QueueTable.tsx:67 | Heart rate is shown in the alert colour iff it is above 110 |
| `Auth.MockEmailsDistinct` | services/authService.ts:4-38 | No two demo accounts share an email address |
| `Auth.FindByEmail` | services/authService.ts:42 | `find` returns nothing iff no account has that exact email, and otherwise the first account that has it |
| `Auth.MockLogin` | services/authService.ts:40-48 | Success iff some demo account's email equals the input exactly and the password is "Password123!". On success: that account, and a token payload with its id and expiry now + 28,800,000 ms. On failure: "Invalid email or password", and no user or token |
| `Auth.LoginUserIsUnique` | services/authService.ts:42-45 | A successful login returns the one demo account whose email matches |
| `Auth.AdminCanSignIn` | services/authService.ts:40-48 | admin@hayattriage.ma signs in with the demo password, with role admin and token id "3" |
| `Auth.Logout` | services/authService.ts:55-58 | Logout removes exactly 'hayat_user' and 'hayat_token'. Every other key keeps its value |
| `Auth.LogoutIdempotent` | services/authService.ts:55-58 | Logging out twice leaves the store as logging out once |
| `Auth.GetCurrentUser` | services/authService.ts:50-53 | No user when 'hayat_user' is absent or empty. Otherwise the result is whatever decoding the stored text gives, which may itself be no user (a stored "null"). A user is returned only from a non-empty record that decodes to it |
| `Auth.NoUserAfterLogout` | services/authService.ts:50-58 | After logout the store yields no current user |
| `Auth.StoredUserIsCurrent` | services/authService.ts:50-53 | After a non-empty record is stored under 'hayat_user', the current-user read gives exactly that record's decoding |
| `App.IsRtl` | App.tsx:89 | Right-to-left iff the language is Arabic ('ar') or Darija ('dar') |
| `App.RtlLanguages` | App.tsx:89-93 | The document direction is 'rtl' for exactly those two languages, and 'ltr' for en, fr and tzm |
| `App.Tick` | App.tsx:99-107 | The list keeps its length and order. Every wait grows by exactly 1 and no other field changes |
| `App.TickState` | App.tsx:101-104 | A tick changes only the patient list in the shell state |
| `App.TickKeepsLevels` | App.tsx:101-104 | After a tick each level holds the same patients, in the same order, one second older |
| `App.TickStats` | components/Dashboard.tsx:38-45 | Across a tick the waiting and critical counts are unchanged. The P3 wait total grows by the P3 count |
| `App.TickCommutesWithSort` | App.tsx:101-104 | Ticking and ordering by level commute |
| `App.TickCommutesWithSelect` | components/Dashboard.tsx:60-63 | Ticking and filtering commute: the search and the level filter do not look at waits |
| `App.TickCommutesWithPanel` | App.tsx:101-104 | After a tick the queue panel lists the same patients in the same order, each one second older |
| `App.RiskScore` | App.tsx:143 | The admission risk score lies in the documented range 0..100 |
| `App.PredictedWait` | App.tsx:144 | The admission predicted wait is never negative |
| `App.AdmissionScalesFollowUrgency` | App.tsx:143-144 | A more urgent level never gets a lower risk score or a longer predicted wait. P1 and P2 strictly beat every less urgent level. P3, P4 and P5 share the same score and wait |
| `App.PatientId` | App.tsx:133 | The id is "PT-" followed by four digits denoting 1000 + draw, a number in 1000..9999 |
| `App.NewPatient` | App.tsx:132-151 | The admitted record has the triaged level and explanation, wait 0 and no doctor. Its risk score and predicted wait are the level's admission values (85/0 for P1, 50/10 for P2, 10/30 otherwise), so the score is in 0..100. It has the form's name, age, gender, symptoms and vitals with empty history, arrival time `now`, the fixed admission SHAP weights, no high-risk flag, and a PT- id in range |
| `App.BeginAdmission` | App.tsx:122 | Submitting sets the analysing flag and changes nothing else |
| `App.FinishAdmission` | App.tsx:130-156 | Afterwards the analysing flag is off. On a triage reply the queue is the new patient followed by the previous queue unchanged. If the call throws the queue is unchanged. Nothing else changes |
| `App.AdmissionEndsAnalysis` | App.tsx:121-157 | After the whole admission the flag is off whether or not triage threw, and only the queue differs from the state before |
| `App.AdmissionStats` | App.tsx:153 | An admission adds one waiting patient, and adds one critical patient exactly when the new level is P1 or P2 |
| `App.AuthSuccess` | App.tsx:109-113 | Sign-in success records the user in state and in the store and moves to the dashboard. Nothing else changes |
| `App.HandleLogout` | App.tsx:115-119 | Logout clears the user, removes the two session keys, keeps every other key's value, and moves to the landing page. Nothing else changes |
| `App.AdminGateMatchesNav` | App.tsx:166 | The admin-panel view renders the panel exactly for users whose navigation bar offers the Admin entry (admin or manager), and otherwise renders the dashboard |
| `App.LaunchFromLanding` | App.tsx:161 | From the landing page, launch goes to the dashboard iff a user is signed in, and to sign-in otherwise. Nothing but the view changes |
| `App.SessionLifecycle` | App.tsx:109-119 | When the stored record decodes to the signed-in user (as a JSON round trip does), the store yields that user after sign-in. After a following logout there is no user in state or in the store, and the view is the landing page |
| `App.SignInThenAdminPanel` | App.tsx:166 | A demo account that signs in sees the administrator panel iff its role is admin or manager |
| `App.InitialState` | App.tsx:82-86 | Start-up: landing page, not analysing, search closed, the given language, store and queue. The user is none when the store has no 'hayat_user' record or an empty one, and otherwise the decoding of that record |
| `App.InitialHeader` | App.tsx:16-78 | The demo queue's header reads 3 waiting, 2 critical and a mean P3 wait of 120 minutes |

## Left out

- Rendering, styling, charts and static content are not modelled. This includes the landing, billing, admin, API-docs, analytics, impact, patient-detail and search-panel components, the navigation markup and the language selectors. `App.NavEntries` keeps only which views the navigation links offer; the bar's sign-in, profile and API-docs buttons are not modelled.
- The generative-AI triage call (`services/geminiService.ts`) is an external network call. Its outcome is the input `TriageReply`. The service's own fallback reply (P3, "Manual triage required.") and a reply whose JSON lacks a priority are not modelled.
- Timers are not modelled: the one-second interval, the one-second sign-in delay, and effect scheduling. The tick is a pure step.
- The browser store is an abstract string map. JSON encoding and decoding and base64 are not modelled. The token is its payload (`Auth.TokenPayload`). The stored user record is the given `userJson`, and decoding it is the parameter `parse`.
- `Math.random`, `Date.now`, `toISOString` and `toLocaleTimeString` are parameters: `draw`, `now`, and the arrival strings.
- The P3 mean is computed with floats in the source. The model uses integer floor division, which gives the same result for non-negative integer waits.
- Lower-casing is ASCII only. `includes` is a code-unit substring test. `localeCompare` is modelled by the level rank. `Types.CodeOrderIsRankOrder` shows that plain code-point order of the codes agrees with the rank.
- The level filter is `AllLevels | OnlyLevel(level)`. The source keeps it as a free string and its selector offers 'all', P1, P2 and P3. A string that names no level matches no patient and cannot be written in this type.
- The intake form's `Number(...)` conversions (and NaN) are not modelled. `Intake` carries numbers already.
- The optional `history`, `explanation` and `isHighRisk` fields are modelled as follows. `history` is a sequence, and the empty sequence means absent. The other two are `Option`s.
- The sign-in and sign-up form plumbing in `components/AuthPages.tsx` is not modelled, nor is the mock sign-up record.
- Plain view changes (`setView` from buttons), language switching, the search-panel toggle, and the `lang` start-up read of 'hayat_lang' with its unchecked cast are not modelled. `App.InitialState` takes the language and the initial queue as parameters.
- Auth.GetCurrentUser: a malformed stored record makes `JSON.parse` throw out of the start-up read (App.tsx:83). The decoder here always returns a value, so that throw is not modelled.
- App.NewPatient: the dashboard's intake form (components/Dashboard.tsx:329-351) has no gender input, so the record the source admits carries an undefined gender. The model takes the gender from `Intake` as given.
- QueueTable.SortedPatients: the source sorts a copy so that the caller's array stays untouched. Values here are immutable, so that guarantee holds by construction and no contract states it.
