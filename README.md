# Campus blood-donation service — a Dafny model

This project models the core of a campus blood-donation coordination app: the
in-memory data service `MockBackendService` and the business logic of the pages
that drive it.

- **Backend service** (`Backend`, services/mockBackend.ts). The class `MockBackendService` holds
  the users, requests and history as sequences, the current user as an `Option`, and the
  key/value store they are written through to. The store is a `Storage` value with one typed
  slot per table. A slot is missing, holds the empty string, holds text that does not parse,
  or holds an encoded value. The session id is its own slot. The class invariant `Valid()`
  has two parts. First, the current user, if any, is one of the stored users. Second,
  reloading the store gives back exactly the in-memory tables (write-through). Every
  operation is specified by a pure function: `LoginResult`, `RegisterResult`,
  `UpdateResult`/`UpdatedUsers`/`SessionAfterUpdate`, `StampRequest`, `StampHistory`,
  `HistoryFor` and `RestoreSession`. The lemmas state email uniqueness, the session
  round trip, partial merge, and that the history listing is filtered, sorted newest
  first and stable.
- **Eligibility** (`Eligibility`, pages/Dashboard.tsx:108-122). It computes a medical hold,
  or a 56-day cooldown counted in days rounded up, as a pure function of
  milliseconds. Lemmas cover the boundary days and show that the result is monotone in time.
- **Pages** (`Dashboard`, `RequestBlood`, `Auth`, `FindCenter`). The stateful pages are classes
  whose fields are the React state they update. Their methods call the backend object,
  and their contracts are stated through the backend's specification functions. The
  centre search is a pure filter.

Clock readings (`Date.now()`, `new Date()`) are a `now: nat` parameter of the operation
that reads them. Generated ids are built from it: `"user_" + now`, `"req_" + now`, and the
number `now` for history entries.

`updateUserProfile` merges any `Partial<User>`, including a new `email`, and does not
re-check uniqueness. `Backend.UpdateKeepsEmailsDistinct` gives the condition under which
uniqueness survives an update. `Backend.UpdateCanDuplicateEmail` exhibits an update that
breaks it. No page sends an email in an update.

## Model

| member | source | states |
|---|---|---|
| Backend.LoadData | services/mockBackend.ts:98-106 | what was saved is what loads back, whatever the fallback; a missing, empty or unparsable slot yields the fallback |
| Backend.RestoreSession | services/mockBackend.ts:86-93 | a user is restored iff the stored session id is non-empty and some user has that id, and then it is the first user with that id |
| Backend.RestoreSessionRoundTrip | services/mockBackend.ts:86-93 | with unique ids, the id saved for a stored user (non-empty) restores that same user after a restart |
| Backend.RestartRestoresSession | services/mockBackend.ts:80-94 | once the service has saved a stored user as the session, reloading the users table and the session key (as the constructor does) makes that user current again, given unique ids |
| Backend.ErrorMessage | services/mockBackend.ts:127 | the three thrown messages (lines 127, 135 and 201), none of them empty |
| Backend.ErrorMessagesDistinct | services/mockBackend.ts:127-201 | different errors carry different messages |
| Backend.DefaultRequests | services/mockBackend.ts:36-65 | two open seed requests with distinct ids, created one day before start-up and at start-up |
| Backend.SeedDataConsistent | services/mockBackend.ts:12-71 | the seed users have distinct ids and emails; the seed history is newest first and belongs to seed users; John's last donation date is his latest entry's date |
| Backend.MockBackendService.constructor | services/mockBackend.ts:80-94 | each table is the stored one or its seed data; the session is restored as `RestoreSession` says; the invariant holds |
| Backend.LoginResult | services/mockBackend.ts:118-128 | login succeeds iff some user's email equals the input case-insensitively, returning the first such user; otherwise `UnknownEmail` |
| Backend.MockBackendService.Login | services/mockBackend.ts:118-128 | on success the user becomes current and the session key holds its id; on failure nothing changes |
| Backend.UserId | services/mockBackend.ts:140 | the generated user id is `user_` followed by the decimal rendering of the clock reading |
| Backend.UserIdInjective | services/mockBackend.ts:140 | user ids generated at different clock readings are different |
| Backend.NewUser | services/mockBackend.ts:138-141 | the new record has the given id and exactly the draft's other fields |
| Backend.RegisterResult | services/mockBackend.ts:130-141 | registration fails with `EmailTaken` iff some user has the email case-insensitively; otherwise the user is the draft with the new id |
| Backend.RegisterKeepsEmailsDistinct | services/mockBackend.ts:134-143 | if emails were pairwise distinct (case-insensitively) before a registration, they are after it |
| Backend.SecondRegistrationFails | services/mockBackend.ts:134-136 | once an email is registered, a second registration with it in any letter case fails |
| Backend.LoginFindsRegisteredUser | services/mockBackend.ts:118-150 | after registering, logging in with the same email in any case yields the new user |
| Backend.Merge | services/mockBackend.ts:192 | every field present in the update takes the update's value, and every other field keeps the user's |
| Backend.MockBackendService.Register | services/mockBackend.ts:130-150 | on success exactly one user is appended and earlier users are unchanged; the new user is current and saved as the session; on failure nothing changes; distinct emails stay distinct |
| Backend.MockBackendService.GetCurrentUser | services/mockBackend.ts:152-154 | returns the session user, which is one of the stored users |
| Backend.MockBackendService.Logout | services/mockBackend.ts:156-159 | no current user, session key removed, tables unchanged |
| Backend.MockBackendService.GetRequests | services/mockBackend.ts:163-166 | returns a copy equal to the stored request list |
| Backend.RequestId | services/mockBackend.ts:173 | the generated request id is `req_` followed by the decimal rendering of the clock reading |
| Backend.RequestIdInjective | services/mockBackend.ts:173 | requests created at different clock readings get different ids |
| Backend.StampRequest | services/mockBackend.ts:171-177 | the stored request carries exactly the draft's fields, status OPEN, the creation time, the `req_` id and the placeholder distance |
| Backend.MockBackendService.CreateRequest | services/mockBackend.ts:168-183 | the new request is prepended, the old ones follow in order, and the table is saved |
| Backend.MergeIsPartial | services/mockBackend.ts:192 | an empty update changes nothing; an update applied twice is applied once; updating availability alone changes no other field |
| Backend.UpdateResult | services/mockBackend.ts:187-202 | the update fails with `UnknownUser` iff no user has the id, and otherwise returns the first user with that id merged with the update |
| Backend.UpdatedUsers | services/mockBackend.ts:190-193 | only the first user with the id changes and it becomes the merged record; every other user is unchanged; an unknown id changes nothing |
| Backend.SessionAfterUpdate | services/mockBackend.ts:195-198 | the session user is refreshed to the merged record iff its id is the updated id and the update succeeded |
| Backend.UpdateKeepsEmailsDistinct | services/mockBackend.ts:187-193 | an update keeps emails distinct unless it sets an email another user already has |
| Backend.UpdateCanDuplicateEmail | services/mockBackend.ts:187-193 | on the seed users, an update of Jane's email to `JOHN@college.edu` produces a duplicate email |
| Backend.MockBackendService.UpdateUserProfile | services/mockBackend.ts:187-202 | unknown id: error and nothing changes; otherwise the table becomes `UpdatedUsers` and is saved, and the session user is refreshed as `SessionAfterUpdate` says |
| Backend.InsertByDate | services/mockBackend.ts:210 | inserting adds exactly one entry and keeps a newest-first list newest-first |
| Backend.SortByDateDesc | services/mockBackend.ts:210 | the sort returns a permutation of its input ordered by date, newest first |
| Backend.SortKeepsTieOrder | services/mockBackend.ts:210 | the sort is stable: entries with equal dates keep their relative order |
| Backend.HistoryFor | services/mockBackend.ts:206-211 | the listing holds exactly the user's entries, each as often as stored, newest first |
| Backend.HistoryForKeepsTieOrder | services/mockBackend.ts:206-211 | among a user's entries of one date, the listing keeps the stored order |
| Backend.MockBackendService.GetHistory | services/mockBackend.ts:206-211 | returns `HistoryFor` of the stored history |
| Backend.StampHistory | services/mockBackend.ts:213-214 | the stored entry is the draft with the clock reading as its id |
| Backend.MockBackendService.AddHistoryItem | services/mockBackend.ts:213-218 | the new entry is prepended, the rest are unchanged, and the table is saved |
| Seqs.FirstIndex | services/mockBackend.ts:190 | `findIndex` returns -1 iff no element matches, and otherwise the first matching index |
| Seqs.Filter | pages/FindCenter.tsx:16 | `filter` keeps exactly the matching elements, as an order-preserving subsequence |
| Seqs.FilterCount | services/mockBackend.ts:209 | `filter` keeps each matching element as often as it occurs and drops the rest |
| Text.ContainsAt | pages/FindCenter.tsx:17-18 | `includes` holds iff the needle occurs at some offset of the string |
| Text.Contains | pages/FindCenter.tsx:17-18 | `includes` holds for the empty search text, and never for a needle longer than the string |
| Text.LowerCase | pages/FindCenter.tsx:17-18 | lower-casing keeps the length and maps each character to its lower-case form |
| Text.LowerCaseIdempotent | pages/FindCenter.tsx:17-18 | lower-casing twice is lower-casing once |
| Text.OrElse | pages/RequestBlood.tsx:40-41 | `s \|\| fallback` is `s` when non-empty and the fallback otherwise, so it is empty only when the fallback is |
| Text.Decimal | services/mockBackend.ts:140 | the rendered clock reading is a non-empty string of digits denoting that number, starting with `0` only for zero, which renders as `0` alone |
| Text.DecimalInjective | services/mockBackend.ts:140 | different clock readings render as different strings |
| Types.DayOf | pages/Dashboard.tsx:84 | the recorded date is the UTC midnight that starts the day of the clock reading |
| Eligibility.CeilDiv | pages/Dashboard.tsx:118 | `Math.ceil(a / b)` is the least `q` with `a <= q * b` |
| Eligibility.CalculateEligibility | pages/Dashboard.tsx:108-122 | with allergies: not eligible, 0 days, "Medical Hold"; with no last date: eligible today; otherwise eligible iff now is at least 56 days after the last date. Without allergies, eligible iff 0 days remain, and a waiting donor's days remaining is the gap to the next eligible instant rounded up to whole days |
| Eligibility.NoticeText | pages/Dashboard.tsx:109-121 | the card shows "Medical Hold" exactly for the hold and "You can donate today!" exactly for an eligible donor |
| Eligibility.EligibilityText | pages/Dashboard.tsx:108-124 | the card's text is "Medical Hold" under an allergy hold, "You can donate today!" when eligible, and otherwise "Eligible in N days" with N the days remaining |
| Eligibility.EligibilityMonotone | pages/Dashboard.tsx:112-121 | once eligible, eligible at every later time; days remaining never increase over time |
| Eligibility.CooldownBoundary | pages/Dashboard.tsx:112-121 | 55 days after a donation one day remains; at 56 and 57 days the donor is eligible |
| Eligibility.LastWaitingDay | pages/Dashboard.tsx:117-121 | at any instant in [last + 55 days, last + 56 days) after a donation at `last`, one day remains |
| Dashboard.SwitchedRole | pages/Dashboard.tsx:60 | DONOR becomes REQUESTER, and every other role (ADMIN included) becomes DONOR; the role always changes |
| Dashboard.SwitchTwice | pages/Dashboard.tsx:60 | switching twice restores a donor or requester; an admin ends up a requester |
| Dashboard.AllergyPatch | pages/Dashboard.tsx:49-52 | the update carries the new flag, `isAvailable = false` when the flag goes on or the user's prior availability when it goes off, and no other key |
| Dashboard.RolePatch | pages/Dashboard.tsx:60-62 | the update carries only the role, set to `SwitchedRole` of the current role, so it always differs from it |
| Dashboard.AllergyToggleEffect | pages/Dashboard.tsx:45-52 | toggling on stores the flag and `isAvailable = false`; toggling off stores the flag and the user's prior availability; nothing else changes |
| Dashboard.WithoutRequest | pages/Dashboard.tsx:97 | exactly the requests with that id are removed; the others keep their order and multiplicity |
| Dashboard.DonationDraft | pages/Dashboard.tsx:81-88 | the entry is a Donation of the user, status "Accepted", dated on the day of the clock reading, with the request's hospital and units |
| Dashboard.HistoryAfterAction | pages/Dashboard.tsx:76-93 | accepting a listed request prepends exactly one Donation entry for the user, built from the first listed request with that id: its hospital and units, status "Accepted", the day of the clock reading as date and the reading as id; ignoring, or an unlisted id, adds none |
| Dashboard.DashboardPage.constructor | pages/Dashboard.tsx:22-28 | empty list, loading, allergy flag from the user or false |
| Dashboard.DashboardPage.FetchRequests | pages/Dashboard.tsx:30-42 | the list becomes the backend's requests and loading ends |
| Dashboard.DashboardPage.CurrentEligibility | pages/Dashboard.tsx:108-124 | the card is `CalculateEligibility` of the page's allergy flag and the user's last date; never eligible under an allergy hold |
| Dashboard.DashboardPage.HandleAllergyToggle | pages/Dashboard.tsx:44-56 | the flag flips and the backend applies `AllergyPatch` to the user, table and session alike; the users slot of the store is saved when the user exists and the store is otherwise unchanged |
| Dashboard.DashboardPage.HandleRoleSwitch | pages/Dashboard.tsx:58-70 | the backend applies the switched role to the user; the users slot of the store is saved when the user exists and the store is otherwise unchanged; the switching flag ends false |
| Dashboard.DashboardPage.HandleRequestAction | pages/Dashboard.tsx:72-105 | the list loses the requests with that id; the history is `HistoryAfterAction`; users, requests and the current user are untouched; the store changes only in its history slot, and only when a listed request is accepted |
| RequestBlood.SubmissionRecordsAgree | pages/RequestBlood.tsx:39-58 | the request is OPEN at "Current Location" with the form's fields, and the history entry is an open Request event with the same hospital and units. Without a session user the ids fall back to "temp"/"Unknown" and "" |
| RequestBlood.SubmittedRequest | pages/RequestBlood.tsx:39-48 | the draft has the form's fields at "Current Location" and names the session user; a missing or empty id or name becomes "temp" or "Unknown", so neither is ever empty |
| RequestBlood.SubmittedHistory | pages/RequestBlood.tsx:51-58 | the entry is an open Request event of the session user (or "") with the form's hospital and units, dated on the day of the clock reading |
| RequestBlood.RequestBloodPage.constructor | pages/RequestBlood.tsx:14-21 | the form starts empty with one unit of A+ at Normal urgency |
| RequestBlood.RequestBloodPage.HandleAIHelp | pages/RequestBlood.tsx:23-32 | with an empty hospital name the page only alerts and leaves the description unchanged; otherwise the description becomes the composed text |
| RequestBlood.RequestBloodPage.HandleSubmit | pages/RequestBlood.tsx:34-66 | one OPEN request is prepended, then one Request history entry, then the page navigates; users and the current user are untouched; the store saves exactly the requests and history slots and keeps the session key |
| Auth.RegisteredFromForm | pages/Auth.tsx:32-39 | a registered user has the entered name, email and role and phone `000-000-0000`; donors get the chosen blood group and `isAvailable = true`, other roles neither |
| Auth.ErrorText | pages/Auth.tsx:42-43 | the shown error is the service's message (never empty, so the generic fallback does not arise) |
| Auth.RegistrationDraft | pages/Auth.tsx:32-39 | the draft has the entered name, email and role, phone `000-000-0000`, the blood group and availability for donors only, and no other field |
| Auth.AuthPage.constructor | pages/Auth.tsx:12-21 | login mode, empty fields, DONOR with O+ |
| Auth.AuthPage.HandleSubmit | pages/Auth.tsx:23-47 | login mode calls only `LoginResult` on the email (the password plays no part); register mode registers the role-conditional draft. `onLogin` happens iff the call succeeds, and then the store's session key holds the user's id (and, on registration, the users slot is saved); otherwise the error text is recorded and the store, the session and the users are unchanged |
| FindCenter.MockCentersDistinct | pages/FindCenter.tsx:6-11 | the four listed centres have distinct ids and distinct names |
| FindCenter.EmptySearchMatchesAll | pages/FindCenter.tsx:16-19 | an empty search keeps every centre |
| FindCenter.FilterCenters | pages/FindCenter.tsx:16-19 | a centre is listed iff its lower-cased name or type includes the lower-cased search; the result is an order-preserving subsequence; an empty search lists all |
| FindCenter.FilteredCenters | pages/FindCenter.tsx:6-19 | the page lists exactly those of its four centres that match the search, in their listed order, and all four for an empty search |
| FindCenter.SearchIgnoresCase | pages/FindCenter.tsx:16-19 | the result does not depend on the letter case of the search text |

## Left out

- Browser storage and JSON: a store slot is an abstract `Stored<T>` value. A save always succeeds and writes the encoded value. The quota errors that `saveData` catches and logs are not modelled. Neither is `JSON.parse` yielding a value of another shape.
- Console logging of caught errors.
- The simulated network delays (`setTimeout` promises): every call is atomic.
- Dates: ISO strings, time zones and DST in `setDate` are not modelled. Dates are epoch milliseconds, and the cooldown is exactly 56 × 86 400 000 ms. A history date is the UTC midnight of its day. Date strings that do not parse (NaN in the sort comparator) are not modelled. An empty `lastDonationDate` string, which is falsy, is not modelled; a last date is either present or absent.
- One clock reading serves a whole action, so the request and the history entry of one submission share `now`. The uniqueness of clock-based ids is not assumed; lemmas that need unique ids say so.
- `toLowerCase` is modelled for ASCII letters only.
- `HistoryItem.id` is `string | number` in the types; it is modelled as an integer, the only kind the code creates.
- services/geminiService.ts and pages/AiAssistant.tsx call an external text-generation API. `HandleAIHelp` takes the composed text (or the service's fallback text) as a parameter.
- Rendering, routing and navigation callbacks (App.tsx, components, pages/History.tsx and pages/Profile.tsx) are not modelled. `navigate`, `onLogin` and the assistant's `alert` are returned flags. `onUserUpdate` is not modelled.
- The dashboard's `animationStates` record and its 700 ms timer: the list filter happens at once.
- Request status transitions (FULFILLED, CANCELLED): the code never performs one, and accepting a request twice records two history entries, as the code does.
- Errors from `updateUserProfile` inside the dashboard handlers: they are caught and logged in the source, and the model discards them.
- RequestBlood.RequestBloodPage.HandleSubmit: the error branch of `handleSubmit` is not modelled. Neither backend call can fail in the model (nor, given that `saveData` swallows storage errors, in the code), so the page always navigates.
