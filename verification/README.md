# FPT Admissions Consulting front-end: a Dafny model

This project models the client-side logic of the FPT University admissions
consulting web application. The front-end is a set of Next.js pages that
call four back-end services: auth, appointment, request-ticket and chatbot.
The model covers the following:

- **Session helpers** in `utils/auth.ts`. These are the token checks, the
  cached user profile, logout and token refresh, all over `localStorage`.
- **`createAppointment` service call** in `utils/services.ts`.
- **Admin dashboard.** Its cards, status distribution and recent list, plus
  the primary and deferred loads behind them.
- **Booking page.** The counselor schedule grid, badges and booking flow.
- **Consultant page.** The grid of paid appointments.
- **Consultant ticket dashboard.** Pending and all tickets, the statistics
  and the respond modal.
- **"My tickets" page.** Its load, error messages, tallies and back-end
  connection test.
- **Request-ticket form.** Identity resolution, the student's ticket list,
  priority mapping and submission.
- **Payment return page.**
- **Student profile page.** The profile, appointments, tabs and edit modal.
- **Chatbot.**
- **Image carousel.**

Each React page is a Dafny `class`:

- Its fields are the page's `useState` variables.
- Each handler or effect is a method with a `modifies this` clause.
- Each method's `ensures` clauses give the page's new state in terms of the
  old state and the inputs.

The rules the pages apply are pure functions, and lemmas prove their
properties. Examples are status labels, colour maps, tallies, the day × slot
grid, identity resolution and the carousel's index arithmetic.

The outside world enters the model as inputs or outputs:

- **Browser storage.** `localStorage` is a `map<string, string>`.
- **HTTP.** Every HTTP round trip is an input. It is either `Threw` (network
  failure, timeout, or JSON that cannot be parsed) or `Reply(ok, body)`,
  where the body is already decoded.
- **JSON codec.** JSON parsing and encoding of stored profiles are function
  parameters.
- **Clock.** The clock is an integer `now`.
- **Recorded outputs.** Navigation (`router.push`, `window.location`),
  `alert` and every request sent are output fields, and the contracts state
  them.

JavaScript semantics are written out where the pages depend on them:

- **Truthiness of storage values.** A value that is missing or `""` is
  falsy.
- **`parseInt`.** It skips leading whitespace, takes an optional sign,
  treats a `0x` prefix as hexadecimal, and stops at the first non-digit.
- **`String.prototype.trim`.** It uses the ECMAScript whitespace set.
- **`toLowerCase`.** Only ASCII letters are lowered.
- **`Array.isArray`.**
- **Template strings with `null`.** ``` `Bearer ${null}` ``` evaluates to
  `"Bearer null"`.
- **`join('\n')`.** The pages never split text. The model adds a reference
  splitter, `SplitLines`, for the lines a reader sees in the
  `whitespace-pre-wrap` block that shows the joined report. It serves as the
  inverse of the join.

## Behaviour the model follows

The model follows the code in each of these cases. Some of them differ
from what the pages' own text suggests, or are easy to miss.

- **Booking failures.** `createAppointment` has no `catch`, and neither
  does `handleBooking`. A network failure while booking therefore rejects
  the handler, and no alert is shown. The alert appears only when the
  service answers with no checkout URL
  (`AppointmentPage.AppointmentPage.HandleBooking`,
  `Services.CreateAppointment`).
- **Admin load errors.** The admin dashboard's outer `catch` cannot be
  reached, because every failure is caught by an inner `try`. So
  `fetchDashboardData` never sets its error message.
- **Admin deferred load.** In the deferred block, a schedules request that
  fails stops the block. So does an `ok` reply whose body is `null`
  (reading `success` from it throws). In both cases the consultants are
  never requested (`AdminPage.AdminPage.LoadSecondary`).
- **Payment success.** The payment page sends the `cancel` flag to the
  service. It then shows success whenever that reply is `ok`, so a
  cancelled payment that the service acknowledges shows the success card
  (`PaymentPage.PaymentPage.Confirm`).
- **Request-ticket identity.** When either `student_id` or `user_id` is
  missing, the request-ticket page takes **both** from the cached profile.
  If the profile has no `userId`, the page resolves no student id, even
  when `student_id` is stored. The next visit then reads the stored id
  again, so resolving the identity is not idempotent
  (`RequestTickets.FallbackDropsStoredStudentId`). What the model proves is
  that the **store** reaches a fixed point after one resolution, and that
  the identity is stable once both ids were found
  (`RequestTickets.ResolveIdentityStable`).
- **Profile editing.** Submitting the profile edit form only closes the
  modal. Nothing is sent and nothing is saved
  (`ProfilePage.ProfilePage.CloseEdit`).
- **Status labels.**
  - The profile page labels status 1 "Chờ thanh toán" and the admin page
    labels it "Chờ xác nhận".
  - Status 5 is shown as cancelled only on the profile page.
  - The booking page treats any status other than 1 and 2 as unknown.
- **Day headers.** The consultant page's day headers have no fallback, so
  an unknown day shows an empty header. The booking page shows
  "Không xác định" instead.

## Model

| member | source | states |
|---|---|---|
| Common.Get | utils/auth.ts:46-49 | a storage read yields a value exactly when the key is present, and then the stored value |
| Common.ToLower | app/consultant-dashboard/page.tsx:121 | lower-casing keeps the length and maps each character independently (ASCII letters lowered, others kept) |
| Common.FindIndex | app/consultant/page.tsx:95-96 | the index found holds the predicate and nothing before it does; none exactly when no element holds it |
| Common.Find | app/consultant/page.tsx:89-91 | `find` is none exactly when no element matches, otherwise a matching element of the list |
| Common.Filter | app/admin/page.tsx:213-216 | `filter` keeps exactly the elements satisfying the predicate and is no longer than its input |
| Common.Count | app/admin/page.tsx:213-216 | a count never exceeds the list length |
| Common.FilterLength | app/admin/page.tsx:213-216 | the length of a filtered list is the number of matching elements |
| Common.FilterAppend | app/consultant/page.tsx:72 | filtering distributes over concatenation, so relative order is kept |
| Common.FilterHeadIsFind | app/appointment/page.tsx:125-127 | the first element of a `filter` is the `find` result, and the filter is empty exactly when `find` finds nothing |
| Common.EnvelopeResponse | app/profile/page.tsx:73-76 | a response (the profile, the appointments, or the admin statistics) is taken exactly from a successful envelope that carries one |
| Common.ListedItems | app/admin/page.tsx:146-155 | a paged listing yields its items exactly when the envelope reports success and carries a response |
| Common.ArrayOrEmpty | app/consultant-dashboard/page.tsx:77-78 | `Array.isArray(data) ? data : []`: an array body is taken as is, anything else becomes empty |
| Numbers.DigitChar | utils/auth.ts:171 | each digit below ten has a decimal digit character whose code is `'0'` plus the digit |
| Numbers.NatToString | utils/auth.ts:166-171 | `toString` of a natural number is a non-empty run of decimal digits without a leading zero |
| Numbers.IntToString | utils/auth.ts:166-171 | `toString` of a negative number is `-` followed by digits; otherwise only digits |
| Numbers.DigitValue | utils/auth.ts:40 | a character's digit value is below 10 exactly for the decimal digits |
| Numbers.DigitRun | utils/auth.ts:40 | `parseInt` consumes the longest prefix of valid digits: all before the stop are digits, the one at the stop is not |
| Numbers.TrimStart | utils/auth.ts:40 | `parseInt` drops a suffix-preserving prefix of whitespace and the result does not start with whitespace |
| Numbers.ParseRadix | utils/auth.ts:40 | parsing in a radix fails exactly when the text is empty or starts with a non-digit |
| Numbers.ParseInt | utils/auth.ts:40 | `parseInt` of blank text is `NaN` |
| Numbers.DigitRunOfDigits | utils/auth.ts:40 | an all-digit text is consumed completely |
| Numbers.NatToStringValue | utils/auth.ts:166-171 | reading back the digits written by `toString` gives the number |
| Numbers.DecimalRoundTrip | utils/auth.ts:166-171 | the unsigned parse of a number's decimal text is that number |
| Numbers.ParseIntRoundTrip | utils/auth.ts:164-171 | `parseInt(n.toString()) == n` for every integer, so stored expirations read back exactly |
| Numbers.ParseIntSkipsWhitespace | utils/auth.ts:40 | leading whitespace does not change what `parseInt` returns |
| Numbers.DigitRunStopsAt | utils/auth.ts:40 | a digit run followed by a non-digit is consumed up to that character |
| Numbers.ParseIntOfDecimal | utils/auth.ts:40 | text starting with a decimal digit (and not `0x`) parses as its decimal digit prefix |
| Numbers.ParseIntReadsDigits | app/my-tickets/page.tsx:72 | `parseInt` of digits followed by a non-digit reads just the digits |
| Numbers.ParseIntReadsPrefix | app/my-tickets/page.tsx:72 | a number written out and followed by a non-digit text parses back to that number |
| Auth.IsAuthenticated | utils/auth.ts:31-43 | no token or no expiration means not authenticated; otherwise authenticated exactly while the parsed expiration is in the future |
| Auth.GetAccessToken | utils/auth.ts:46-49 | the stored access token, which is truthy exactly when a token is present |
| Auth.Bearer | app/consultant-dashboard/page.tsx:57 | the header is `Bearer ` plus the stored token, or `Bearer null` when none is stored |
| Auth.GetTokens | utils/auth.ts:52-72 | the token set exists exactly when all five entries (access_token, token_type, expires_in, refresh_token, scope) are truthy, and carries the stored values |
| Auth.HasTokenSet | utils/auth.ts:61 | the guard of `getTokens`: all five token keys hold a non-empty value |
| Auth.GetStoredUserProfile | utils/auth.ts:113-124 | no cached profile gives none; otherwise the decoded profile (none when it does not parse) |
| Auth.LogoutStore | utils/auth.ts:127-140 | logout removes exactly the seven session keys and keeps every other entry |
| Auth.Stored | utils/auth.ts:164-169 | `setItem` of an undefined value stores the text "undefined" |
| Auth.StoreGrant | utils/auth.ts:164-171 | a refresh stores the six grant entries (expiration as `now + expires_in*1000` in decimal), keeps the profile and every unrelated entry |
| Auth.ExpirationAfter | utils/auth.ts:170 | the expiration instant: the clock plus `expires_in` seconds in milliseconds |
| Auth.LogoutEndsSession | utils/auth.ts:127-140 | after logout the user is not authenticated, has no tokens, no cached profile and no access token |
| Auth.RefreshSetsExpiration | utils/auth.ts:164-171 | right after a refresh the session is authenticated at any time before the stored expiration |
| Auth.RefreshThenGetTokens | utils/auth.ts:164-169 | after a refresh with non-empty fields, `getTokens` returns exactly the granted tokens |
| Auth.CachedProfileReadsBack | utils/auth.ts:95 | a profile cached by `fetchUserProfile` is read back by `getStoredUserProfile` when the codec round-trips |
| Auth.Browser.Logout | utils/auth.ts:127-140 | storage becomes the logged-out store and the browser goes to `/` |
| Auth.Browser.FetchUserProfile | utils/auth.ts:75-110 | no token: no request, no result; an ok reply with a body caches and returns its `response`; a non-ok reply logs out and goes to `/`; otherwise storage is unchanged |
| Auth.Browser.RefreshToken | utils/auth.ts:143-184 | no token set: false, no request; a usable grant is stored and gives true; any other outcome logs out and goes to `/` |
| Services.CreateAppointment | utils/services.ts:8-26 | no token: no request and a null result; otherwise one request with the bearer token, schedule id and content; a network failure rejects; the checkout URL is returned only for a successful envelope carrying one |
| Services.GrantsCheckout | utils/services.ts:22 | `data && data.success && data.response && data.response.checkoutUrl`: a body grants a checkout exactly when all four are truthy |
| TicketViews.PriorityColor | app/consultant-dashboard/page.tsx:120-128 | low/medium/high/urgent (any case) map to green/yellow/orange/red, anything else to gray |
| TicketViews.StatusColor | app/consultant-dashboard/page.tsx:130-137 | pending maps to blue, responded to green, closed and anything else to gray, ignoring case |
| TicketViews.ToLowerIdempotent | app/my-tickets/page.tsx:89 | lower-casing twice is lower-casing once |
| TicketViews.ColorsIgnoreCase | app/my-tickets/page.tsx:88-105 | a name and its lower-cased form get the same colours |
| TicketViews.SameColorsUpToCase | app/my-tickets/page.tsx:88-105 | names equal up to case get the same priority and status colours |
| TicketViews.PriorityColorsDistinct | app/consultant-dashboard/page.tsx:120-128 | the four known priorities get four different colours, none of them the default gray |
| TicketViews.StatusTally | app/my-tickets/page.tsx:219-233 | a status tally counts tickets whose lower-cased status name matches, and is at most the total |
| TicketViews.TalliesPartition | app/my-tickets/page.tsx:214-233 | pending + responded + closed + other statuses = all tickets |
| TicketViews.TalliesBounded | app/consultant-dashboard/page.tsx:170-181 | the three status tallies never add up to more than the total |
| ConsultantDashboard.CurrentTickets | app/consultant-dashboard/page.tsx:143 | the pending tab lists the pending tickets, the all tab every ticket |
| ConsultantDashboard.LoadRequests | app/consultant-dashboard/page.tsx:53-70 | one load requests the pending list, then the full list unless the first request threw |
| ConsultantDashboard.RespondOffered | app/consultant-dashboard/page.tsx:319 | a row offers "Phản hồi" exactly when its status lowers to `pending` |
| ConsultantDashboard.SubmitEnabled | app/consultant-dashboard/page.tsx:401 | the modal's submit button is enabled when nothing is being sent and the answer is not blank; HandleRespond never raises the blank-answer alert when it is |
| ConsultantDashboard.DashboardStats | app/consultant-dashboard/page.tsx:166-185 | the four cards: pending count, responded and closed tallies of all tickets, total; responded + closed never exceed the total |
| ConsultantDashboard.Dashboard.constructor | app/consultant-dashboard/page.tsx:30-37 | the initial state: empty lists, pending tab, nothing selected, no response |
| ConsultantDashboard.Dashboard.Mount | app/consultant-dashboard/page.tsx:40-46 | not authenticated: go to `/login` and send nothing; otherwise the load's requests, and each list is its array body or empty when both replies are ok, else the load error with the lists kept |
| ConsultantDashboard.Dashboard.FetchTickets | app/consultant-dashboard/page.tsx:48-85 | both lists requested with the bearer token (the second only if the first did not throw); both ok: each list is its array body or empty; otherwise the load error with the lists kept; loading ends |
| ConsultantDashboard.Dashboard.SetTab | app/consultant-dashboard/page.tsx:206-216 | only the active tab changes |
| ConsultantDashboard.Dashboard.SelectTicket | app/consultant-dashboard/page.tsx:319-321 | "Phản hồi" is offered and selects a ticket only when its status is pending |
| ConsultantDashboard.Dashboard.SetResponse | app/consultant-dashboard/page.tsx:379-380 | only the response text changes |
| ConsultantDashboard.Dashboard.CloseModal | app/consultant-dashboard/page.tsx:348-350 | the selection and the response are cleared |
| ConsultantDashboard.Dashboard.HandleRespond | app/consultant-dashboard/page.tsx:87-118 | a blank response alerts and changes nothing else; an ok reply alerts success, clears the modal and reloads, with the reload's requests, lists and error exactly as FetchTickets gives them; a failure alerts the error and keeps the modal, the lists and the error |
| MyTickets.HttpErrorMessage | app/my-tickets/page.tsx:70-73 | the message starts with `HTTP `, its status reads back by `parseInt`, and it ends with the body text or the default detail |
| MyTickets.HttpMessageParts | app/my-tickets/page.tsx:72 | `HTTP ${status}: ${detail}` starts with `HTTP `, `parseInt` reads the status back after it, and the detail is its suffix |
| MyTickets.LastPartIsSuffix | app/my-tickets/page.tsx:72 | the detail appended last is the message's suffix of its own length |
| MyTickets.LoadErrorMessage | app/my-tickets/page.tsx:51-86 | no error exactly for an ok reply; a thrown error gives the prefix plus its message (or "Unknown error"); a non-ok reply the prefix plus the HTTP message |
| MyTickets.TicketTallies | app/my-tickets/page.tsx:214-236 | the four cards: total, pending, responded and closed tallies, the three never above the total |
| MyTickets.ResultLine | app/my-tickets/page.tsx:138-141 | each result line starts with the probe's name and `: ` |
| MyTickets.ProbeRequest | app/my-tickets/page.tsx:126-136 | a probe targets its URL and carries the bearer header exactly when it needs auth and a token is stored |
| MyTickets.JoinLines | app/my-tickets/page.tsx:145 | joining no lines is empty, one line is itself |
| MyTickets.SplitLines | app/my-tickets/page.tsx:185 | the lines a reader sees in the `whitespace-pre-wrap` report block: the pieces between newlines, at least one; a reference inverse of the join, not code the page runs |
| MyTickets.SplitJoin | app/my-tickets/page.tsx:145 | the report joined with `join('\n')` shows, line by line, exactly the joined lines when none of them contains a newline |
| MyTickets.ResultLinePlain | app/my-tickets/page.tsx:138-141 | a result line has no newline when its name and outcome have none |
| MyTickets.ProbeNamesPlain | app/my-tickets/page.tsx:115-120 | the four probe names contain no newline |
| MyTickets.ReportLines | app/my-tickets/page.tsx:122-145 | when no outcome text holds a newline, the shown report splits back into exactly the probe lines, one per probe in order, each starting with its probe's name |
| MyTickets.ProbeRequests | app/my-tickets/page.tsx:122-136 | the probe requests in probe order, each built by ProbeRequest |
| MyTickets.ResultLines | app/my-tickets/page.tsx:137-142 | the report lines in probe order, each built by ResultLine |
| MyTickets.MyTicketsPage.constructor | app/my-tickets/page.tsx:30-33 | no tickets, not loading, no error, no test result |
| MyTickets.MyTicketsPage.Mount | app/my-tickets/page.tsx:36-49 | no token: go to `/login`; otherwise one request with that token, the error message of the reply, and its array body as the tickets (none after an error) |
| MyTickets.MyTicketsPage.FetchMyTickets | app/my-tickets/page.tsx:51-86 | one request with the bearer token; the error is the load error message or cleared; on success the array body or empty, on error no tickets; loading ends |
| MyTickets.MyTicketsPage.Retry | app/my-tickets/page.tsx:194-197 | "Thử lại" refetches with the stored token, so the error and the tickets follow the new reply; without a token nothing changes |
| MyTickets.MyTicketsPage.TestBackendConnection | app/my-tickets/page.tsx:112-146 | the four probes are sent in order, each with the token only when it needs auth and one is stored, and the result is their report lines joined by newlines |
| RequestTickets.MapPriorityToId | app/request-tickets/page.tsx:90-98 | ids are 1..4 and an unknown priority maps to 2 |
| RequestTickets.PriorityIdsRoundTrip | app/request-tickets/page.tsx:226-229 | each offered priority's id indexes that priority in the option list |
| RequestTickets.PriorityIdsDistinct | app/request-tickets/page.tsx:90-98 | different offered priorities get different ids |
| RequestTickets.WriteIfTruthy | app/request-tickets/page.tsx:45-46 | a truthy value is stored, anything else leaves storage as it was |
| RequestTickets.ResolveIdentity | app/request-tickets/page.tsx:32-58 | both ids stored: used as they are, storage unchanged; otherwise a cached profile that parses replaces both ids by its `userId` and `email`, each stored only when non-empty; with no cached profile, or one that fails to parse, the stored ids stand and nothing is written; only the two id keys may ever be written, and each resolved id is what storage then holds |
| RequestTickets.ResolveIdentityStable | app/request-tickets/page.tsx:32-58 | resolving again leaves storage as the first resolution left it, and a fully resolved identity is stable |
| RequestTickets.FallbackDropsStoredStudentId | app/request-tickets/page.tsx:36-46 | with `student_id` stored but no `user_id`, a profile without `userId` resolves no student id, while the next visit reads the stored one |
| RequestTickets.NormalizeTickets | app/request-tickets/page.tsx:78 | an array body is the list, an object's `tickets` is the list, anything else is empty |
| RequestTickets.RequestTicketPage.constructor | app/request-tickets/page.tsx:17-29 | the empty form with Medium priority, no ids, no list |
| RequestTickets.RequestTicketPage.Mount | app/request-tickets/page.tsx:32-87 | identity resolved against the browser storage, written back, and the list loaded for the resolved student id |
| RequestTickets.RequestTicketPage.FetchTicketList | app/request-tickets/page.tsx:61-87 | one request for the student id; ok replies are normalised, anything else empties the list; list loading ends |
| RequestTickets.RequestTicketPage.Edit | app/request-tickets/page.tsx:199-237 | only the form changes |
| RequestTickets.RequestTicketPage.HandleSubmit | app/request-tickets/page.tsx:100-156 | not authenticated: go to `/login`; missing ids: the identity error; otherwise one request with the mapped priority, then on success an alert and `/my-tickets` or `/` by the confirmation, on failure the error message |
| RequestTickets.RequestTicketPage.Submit | app/request-tickets/page.tsx:193-212 | an empty title or description blocks the form before the handler, so nothing is sent; with both filled, the login redirect, the identity error, or the one ticket request followed by the success alert and navigation or the failure error, exactly as HandleSubmit |
| PaymentPage.CancelFlag | app/payment/page.tsx:15 | cancel is true exactly for the query value "true" |
| PaymentPage.CallbackRequestFor | app/payment/page.tsx:12-50 | a callback is sent exactly when id, code and token are present, carrying them and the cancel flag |
| PaymentPage.PaymentPage.constructor | app/payment/page.tsx:9-10 | loading, no outcome |
| PaymentPage.PaymentPage.Render | app/payment/page.tsx:52-82 | the spinner while loading, success only for a known success |
| PaymentPage.PaymentPage.Confirm | app/payment/page.tsx:12-50 | success exactly when the callback was sent and answered ok; loading ends |
| PaymentPage.PaymentPage.Continue | app/payment/page.tsx:68-82 | success goes to `/profile`, failure to `/` |
| ProfilePage.StatusBadges | app/profile/page.tsx:218-221 | status 1, 2, 4 and 3/5 each get their label |
| ProfilePage.AtMostOneBadge | app/profile/page.tsx:218-221 | at most one badge, and exactly one for statuses 1 to 5 |
| ProfilePage.ProfilePage.constructor | app/profile/page.tsx:42-49 | loading, no data, profile tab, modal closed |
| ProfilePage.ProfilePage.AppointmentPanel | app/profile/page.tsx:183-194 | spinner while loading, then the error, then the empty notice, then the list |
| ProfilePage.ProfilePage.Mount | app/profile/page.tsx:51-60 | no token: go to `/login`; otherwise both requests with that token, the profile and the edit draft taken from a well-formed ok reply (kept otherwise), and the appointments or the error as FetchAppointments gives them |
| ProfilePage.ProfilePage.FetchUserProfile | app/profile/page.tsx:62-80 | a well-formed ok reply sets both the shown profile and the edit draft; otherwise nothing changes |
| ProfilePage.ProfilePage.FetchAppointments | app/profile/page.tsx:82-111 | no token: the not-logged-in error; otherwise a successful envelope replaces the list, another body gives the no-appointments error, a failure the load error; loading ends |
| ProfilePage.ProfilePage.SetTab | app/profile/page.tsx:123-125 | only the active tab changes |
| ProfilePage.ProfilePage.OpenEdit | app/profile/page.tsx:174 | the modal opens |
| ProfilePage.ProfilePage.EditDraft | app/profile/page.tsx:250-275 | only the draft changes, never the shown profile |
| ProfilePage.ProfilePage.CloseEdit | app/profile/page.tsx:246-278 | the modal closes, nothing is sent, nothing saved |
| Chatbot.BotMessage | app/chatbot/page.tsx:55-84 | an ok reply with a body becomes the answer bubble, anything else the connection error |
| Chatbot.CanSend | app/chatbot/page.tsx:37 | `sendMessage` goes ahead, and the send button of line 321 is enabled, exactly when nothing is loading and the text is not blank |
| Chatbot.ChatbotPage.constructor | app/chatbot/page.tsx:9-11 | empty conversation and input, not loading |
| Chatbot.ChatbotPage.SendMessage | app/chatbot/page.tsx:36-53 | sent exactly when not loading and the text is not blank; then the question is appended, the input cleared, loading set and the question posted |
| Chatbot.ChatbotPage.CompleteSend | app/chatbot/page.tsx:54-88 | exactly one bot bubble is appended and loading ends |
| Chatbot.ChatbotPage.HandleInputSubmit | app/chatbot/page.tsx:90-93 | sends the input box's text: when CanSend holds, the question is appended, the input cleared, loading set and the question posted; otherwise nothing changes |
| Chatbot.ChatbotPage.HandleDefaultQuestion | app/chatbot/page.tsx:95-97 | a suggestion fills the input and sends nothing |
| Chatbot.ChatbotPage.SetInput | app/chatbot/page.tsx:302-310 | only the input changes |
| Chatbot.ChatbotPage.RefreshChat | app/chatbot/page.tsx:99-103 | the conversation and input are cleared and loading ends |
| ScheduleGrid.DayName | app/appointment/page.tsx:56-64 | a name exists exactly for days 1 to 7 |
| ScheduleGrid.DayLabel | app/appointment/page.tsx:112 | a known day's name, otherwise "Không xác định" |
| ScheduleGrid.DayNamesDistinct | app/consultant/page.tsx:34-42 | the seven day names are pairwise different and none is the unknown label |
| ScheduleGrid.InsertAscending | app/appointment/page.tsx:106-110 | inserting keeps the list ascending and duplicate-free, with exactly the old elements and the new one |
| ScheduleGrid.DistinctAscending | app/appointment/page.tsx:106-110 | `Array.from(new Set(ids)).sort(...)` holds every id once, ascending |
| ScheduleGrid.ConsAscending | app/appointment/page.tsx:106-110 | a head below every element of an ascending list keeps it ascending |
| ScheduleGrid.AscendingUnique | app/appointment/page.tsx:106-110 | an ascending duplicate-free list is determined by its elements |
| ScheduleGrid.DistinctAscendingCanonical | app/consultant/page.tsx:85-86 | the columns and rows depend only on which ids occur, not on order or repetition |
| ScheduleGrid.DayIds | app/consultant/page.tsx:85 | `map(a => a.dayId)` |
| ScheduleGrid.SlotIds | app/consultant/page.tsx:86 | `map(a => a.slotId)` |
| ScheduleGrid.SlotLabel | app/consultant/page.tsx:89-92 | a slot's label is the first record's text for that slot, or empty when there is none |
| ScheduleGrid.DayIdColumns | app/consultant/page.tsx:85 | every day that occurs, once, ascending |
| ScheduleGrid.SlotIdRows | app/consultant/page.tsx:86 | every slot that occurs, once, ascending |
| ScheduleGrid.Days | app/appointment/page.tsx:106-114 | one labelled column per distinct day, in order |
| ScheduleGrid.Slots | app/appointment/page.tsx:115-123 | one labelled row per distinct slot, in order |
| ScheduleGrid.Resolve | app/appointment/page.tsx:125-127 | the records resolved for a cell lie at that cell; empty exactly when none does; all of them under `filter`, at most one under `find` |
| ScheduleGrid.Cell | app/appointment/page.tsx:263-277 | a dash exactly when nothing is at the cell, otherwise a record at that cell |
| ScheduleGrid.PoliciesAgree | app/consultant/page.tsx:95-96 | `getCounselors(...)[0]` and `getAppointment(...)` show the same first record |
| ScheduleGrid.NoRecordDropped | app/appointment/page.tsx:104-127 | every record's day is a column, its slot a row, and its cell shows something |
| ScheduleGrid.Grid | app/appointment/page.tsx:259-263 | one row per slot, one cell per day |
| ScheduleGrid.GridOccupancy | app/consultant/page.tsx:164-170 | cell (i, j) shows something exactly when some record has that day and slot, and then the first one |
| ScheduleGrid.EmptyInput | app/consultant/page.tsx:85-86 | no records give no columns, no rows and no grid |
| AdminPage.StatusCount | app/admin/page.tsx:213-216 | a status count is the number of appointments with that status |
| AdminPage.StatusData | app/admin/page.tsx:212-217 | four slices, pending, paid, completed and cancelled, with their counts and colours |
| AdminPage.SlicesPartition | app/admin/page.tsx:212-217 | the four slices plus the appointments of other statuses add up to all appointments |
| AdminPage.StatusDataTotal | app/admin/page.tsx:212-217 | the slices never exceed the total, and equal it when every status is 1 to 4 |
| AdminPage.NoneCounted | app/admin/page.tsx:213-216 | a predicate no appointment satisfies counts zero |
| AdminPage.CounselorIds | app/admin/page.tsx:220 | the set holds exactly the counselor ids occurring in the schedules |
| AdminPage.UniqueCounselors | app/admin/page.tsx:220 | the set size: at most the number of schedules, zero exactly for none |
| AdminPage.OneCounselor | app/admin/page.tsx:220 | schedules all of one counselor count one |
| AdminPage.CounselorCard | app/admin/page.tsx:314 | the unique counselor count when there are schedules, otherwise the consultant total |
| AdminPage.TodayCard | app/admin/page.tsx:330 | today's count, or 0 without statistics |
| AdminPage.StatusLabel | app/admin/page.tsx:468-471 | each status 1 to 4 has its label, any other "Không xác định" |
| AdminPage.StatusLabelsDistinct | app/admin/page.tsx:468-471 | the four labels are different and none is the unknown label |
| AdminPage.Recent | app/admin/page.tsx:443 | `slice(0, 5)`: the first five appointments, or all when fewer |
| AdminPage.ReplyUpdates | app/admin/page.tsx:133-190 | a failed or non-OK reply keeps the shown statistics or list, an OK well-formed one replaces it regardless of the old value, the same reply twice is the same as once, and the consultant count is the length of the list |
| AdminPage.StatsAfter | app/admin/page.tsx:133-143 | the statistics after the stats reply: replaced by an OK reply whose envelope succeeds with a response, kept otherwise |
| AdminPage.ListAfter | app/admin/page.tsx:145-155 | a list after its listing reply: replaced by the items of an OK, successful paged envelope, kept otherwise |
| AdminPage.CountAfter | app/admin/page.tsx:185-190 | replaced by the size of an ok, well-formed listing, kept otherwise |
| AdminPage.AdminPage.constructor | app/admin/page.tsx:70-77 | loading, no data |
| AdminPage.AdminPage.Mount | app/admin/page.tsx:79-101 | no token: the not-logged-in error; otherwise the cached profile if it parses and the dashboard data |
| AdminPage.AdminPage.FetchDashboardData | app/admin/page.tsx:103-202 | each of statistics and appointments taken from its own reply or kept; the error stays clear and data loading ends |
| AdminPage.AdminPage.LoadSecondary | app/admin/page.tsx:159-194 | schedules taken from their reply; the consultants are requested exactly when that reply does not abort, and their count then updated |
| AppointmentPage.StatusBadge | app/appointment/page.tsx:146-168 | available, booked, and unknown for every other status |
| AppointmentPage.BadgeText | app/appointment/page.tsx:146-168 | the three badge texts |
| AppointmentPage.IsDisabled | app/appointment/page.tsx:277 | a grid button is disabled exactly when its entry is booked |
| AppointmentPage.BookOffered | app/appointment/page.tsx:391 | the detail modal offers booking exactly when the entry is available |
| AppointmentPage.BookableIsClickable | app/appointment/page.tsx:277-291 | a bookable entry is clickable with the available badge; a booked one is disabled and not bookable |
| AppointmentPage.LoadError | app/appointment/page.tsx:86-103 | no error exactly for an ok successful body; otherwise the message for a throw, a non-ok reply or a refused body |
| AppointmentPage.AppointmentPage.constructor | app/appointment/page.tsx:67-73 | loading, nothing selected, no modal |
| AppointmentPage.AppointmentPage.Mount | app/appointment/page.tsx:76-84 | no token: go to `/login`; otherwise the cached profile and the schedules |
| AppointmentPage.AppointmentPage.FetchSchedules | app/appointment/page.tsx:86-103 | a successful body replaces the schedules; otherwise its message is set and the schedules kept; loading ends |
| AppointmentPage.AppointmentPage.HandleSlotClick | app/appointment/page.tsx:129-132 | the entry is selected and its detail modal opened |
| AppointmentPage.AppointmentPage.ClickCell | app/appointment/page.tsx:263-277 | a click on an occupied cell with an enabled button opens the first entry there; otherwise nothing |
| AppointmentPage.AppointmentPage.ChooseBook | app/appointment/page.tsx:391-396 | for an available entry, the detail modal gives way to the booking modal |
| AppointmentPage.AppointmentPage.CloseCounselorModal | app/appointment/page.tsx:369 | the detail modal closes and the selection is dropped |
| AppointmentPage.AppointmentPage.CancelBooking | app/appointment/page.tsx:347-350 | the booking modal closes and the selection is dropped |
| AppointmentPage.AppointmentPage.HandleBooking | app/appointment/page.tsx:134-144 | nothing without a selection; otherwise the modal closes and the booking is sent; a checkout URL navigates there, a null result alerts, a rejection leaves no alert |
| ConsultantPage.PaidOnly | app/consultant/page.tsx:72 | exactly the paid appointments are kept |
| ConsultantPage.PaidOnlyAppend | app/consultant/page.tsx:72 | keeping the paid ones preserves the order of the listing |
| ConsultantPage.DayHeader | app/consultant/page.tsx:160 | a known day's name, an empty header otherwise |
| ConsultantPage.ConsultantPage.constructor | app/consultant/page.tsx:45-47 | loading, no appointments |
| ConsultantPage.ConsultantPage.Mount | app/consultant/page.tsx:49-57 | no token: the not-logged-in error and no request; otherwise the load |
| ConsultantPage.ConsultantPage.FetchAppointments | app/consultant/page.tsx:59-82 | a well-formed listing keeps its paid appointments; another body empties the list with the no-appointments error; a failure sets the load error; only paid appointments are ever held |
| ConsultantPage.CellsShowPaid | app/consultant/page.tsx:164-180 | every occupied cell shows a paid appointment, and a cell is occupied exactly when a paid appointment is at it |
| Carousel.Next | components/Carousel.tsx:39-41 | the next index, wrapping from the last to 0 |
| Carousel.Prev | components/Carousel.tsx:43-45 | the previous index, wrapping from 0 to the last |
| Carousel.NextPrevInverse | components/Carousel.tsx:39-45 | next and previous undo each other |
| Carousel.Advance | components/Carousel.tsx:23-33 | the index after any number of auto-advances stays in range |
| Carousel.AdvanceWithoutWrap | components/Carousel.tsx:23-33 | before wrapping, k steps add k |
| Carousel.AdvanceCompose | components/Carousel.tsx:23-33 | a steps then b steps are a + b steps |
| Carousel.FullCycle | components/Carousel.tsx:23-33 | after one step per image the first image is back, and not before |
| Carousel.NoEarlyReturn | components/Carousel.tsx:23-33 | fewer steps than images, but at least one, never lead back to where the carousel started |
| Carousel.SwipeStep | components/Carousel.tsx:56-68 | no gesture when either coordinate is 0; forward beyond 50 px left, back beyond 50 px right, otherwise stay |
| Carousel.SwipesMirror | components/Carousel.tsx:56-68 | a mirrored gesture steps the other way |
| Carousel.Apply | components/Carousel.tsx:63-68 | a step keeps the index in range, and staying keeps it |
| Carousel.Carousel.constructor | components/Carousel.tsx:16-19 | first image, not hovered, no gesture |
| Carousel.Carousel.Render | components/Carousel.tsx:100-102 | the placeholder exactly for no images, otherwise the current slide |
| Carousel.Carousel.GoToSlide | components/Carousel.tsx:35-37 | the dot's index becomes current |
| Carousel.Carousel.GoToNext | components/Carousel.tsx:39-41 | the index advances with wrap-around |
| Carousel.Carousel.GoToPrevious | components/Carousel.tsx:43-45 | the index goes back with wrap-around |
| Carousel.Carousel.Tick | components/Carousel.tsx:23-33 | the timer advances only when not hovered and there is more than one image |
| Carousel.Carousel.MouseEnter | components/Carousel.tsx:108 | hovering pauses the timer |
| Carousel.Carousel.MouseLeave | components/Carousel.tsx:109 | leaving resumes it |
| Carousel.Carousel.PointerDown | components/Carousel.tsx:48-50 | the gesture's start is recorded |
| Carousel.Carousel.TouchMove | components/Carousel.tsx:52-54 | the finger's position is recorded |
| Carousel.Carousel.MouseMove | components/Carousel.tsx:76-80 | the pointer's position is recorded only during a drag |
| Carousel.Carousel.TouchEnd | components/Carousel.tsx:56-69 | the swipe is applied and the coordinates are kept |
| Carousel.Carousel.MouseUp | components/Carousel.tsx:82-97 | the swipe is applied, then the coordinates reset, except after the early return |

## Left out

- **Server-side rendering.** The `typeof window` guards are not modelled.
  The model always runs in a browser.
- **JSON.** Parsing and `JSON.stringify` are function parameters or
  already-decoded bodies. A body that fails to parse counts as a thrown
  request.
- **Field types.** Fields that JSON could make `null` or of another type
  are not modelled. Neither are non-array truthy `items`.
- **Number precision.** Floating-point precision is not modelled, so
  `parseInt` and `Date.now()` are unbounded integers. `Date`,
  `toLocaleString`, `formatDate` and chart data are left out, and so are
  message ids built from the clock.
- **Unicode case.** `toLowerCase` is modelled on ASCII only. The statuses
  and priorities it compares are ASCII.
- **React scheduling.** Batching, stale closures and overlapping requests
  (such as a chat refresh while an answer is pending) are not modelled.
  Each handler runs to completion on the state it starts from.
- **Timeouts.** The 10-second `Promise.race` timeouts and the 100 ms
  deferral are not modelled. A timeout is a thrown request, and the
  deferred admin block is its own method.
- **Browser dialogs.** `alert` is an output field and `confirm` is a
  boolean input.
- **Logging.** Console logging and the debug output are not modelled.
- **Other code.** The `useAuth` hook, the login page, the header and the
  other context components are not part of this model.
- **Carousel images.** The image count is fixed when the carousel is
  created. A change of the `images` prop is not modelled.
- **Admin extras.** The admin page's inline retry button and its charts
  are not modelled.
- **Ticket fields.** Tickets keep only the fields the pages branch on.
- **My-tickets intermediate state.** The "Testing connection..." text shown
  while the probes run is not modelled. Only the final report is.
- **Chatbot answer.** An answer body without an `answer` field is treated
  as a body that did not parse.
- Chatbot.DefaultQuestions: the ten suggestions are not proved to be
  non-blank, so a suggestion is sent under the same guard as typed text.
- Numbers.ParseInt: the ensures names only the blank case. Its full
  behaviour is stated by `ParseIntRoundTrip`, `ParseIntSkipsWhitespace`
  and `ParseIntReadsPrefix`.
- MyTickets.JoinLines: the ensures covers only zero and one lines. The
  general case is stated by `SplitJoin` and `ReportLines`.
