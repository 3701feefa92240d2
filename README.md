# ChronoForge core, modelled in Dafny

ChronoForge plans a student's next fourteen days. The server takes the student's goals, calendar events and a few capacity limits and lays goal blocks into the free time of each day. The iOS client fetches that plan, caches it, reminds the student of blocks and deadlines, and asks for a short check-in after each block.

This project models the sequential logic of both sides and proves what each part promises.

**Client (Swift):**
- `Auth`: the token state.
- `Cache`: the single-slot plan cache, which stores dates in whole seconds.
- `Models`: the decoded data model and its identities.
- `Network`: building and authorising requests, and classifying each outcome into a value or an `APIError`.
- `Dashboard`: the dashboard refresh. One critical plan fetch decides the outcome; the other feeds are best-effort. Failures fall back to the cached plan. This module also derives the block waiting for a check-in, and handles check-in submission.
- `Notifications`: the reminder scheduler. The notification registry is a map from identifier to request.
- `PlanScreen`: the plan screen.
- `MockApi`: the offline client's path dispatch and its fixture plan.

**Server (Python):**
- `Intervals` and `Scheduler`: the free-time computation. It covers the sleep window with wrap-around, clipping events to the day, merging sorted spans, the gap sweep, the 30-minute minimum slot and the time-window test.
- `Allocator`: `_split_slot` and `generate_plan`.
- `Schemas`: the shared records with their constraints and defaults.
- `CheckinStore`, `GoalStore` and `TokenStore`: the in-memory stores.
- `PlanRouter`: the plan routes and their per-user memo.
- `CheckinsRouter`: the check-in routes.
- `Canvas`: the Canvas task filter and sort.
- `Google`: the Gmail keyword classifier and the Calendar item mapping.
- `DayFilter`: the planner's day filter over Calendar events as Python evaluates it, where an all-day item's date has no time zone.

**Shared:**
- `Wrappers`: `Option` and `Result`.
- `Lists`: filtering, first match and a stable keyed sort.
- `Text`: decimal rendering, substring search and ASCII lower-casing.

**How the model is shaped:**
- Whatever the source mutates is a class whose methods state its whole new state: view models, the cache, the registry, the stores and the routers. Loops are kept as loops and proved against specification functions.
- Nondeterministic or foreign inputs are parameters: the clock, "today", uuids, remote replies, the ISO-8601 parser, the language-model services and the date-key formatter.
- Instants are integers: milliseconds since the epoch on the client and seconds on the server, always in UTC.
- Hours held as floats are exact reals.

## Model

| member | source | states |
|---|---|---|
| Auth.AuthManager.constructor | ios/ChronoForge/ChronoForge/Services/AuthManager.swift:13-15 | starts from the stored token and email; signed in exactly when a token was stored |
| Auth.AuthManager.SetToken | ios/ChronoForge/ChronoForge/Services/AuthManager.swift:17-21 | stores the token as given and the email or "" when nil, and is signed in; the flag agrees with the token exactly when the new token is non-empty |
| Auth.AuthManager.Logout | ios/ChronoForge/ChronoForge/Services/AuthManager.swift:23-27 | token and email cleared, signed out, flag and token in agreement |
| Auth.AuthManager.CurrentToken | ios/ChronoForge/ChronoForge/Services/AuthManager.swift:29-31 | nil exactly when the stored token is empty, otherwise that token |
| Auth.EmptyTokenSignIn | ios/ChronoForge/ChronoForge/Services/AuthManager.swift:17-31 | `setToken("")` leaves the user signed in while no token is sent |
| Auth.SignInThenLogout | ios/ChronoForge/ChronoForge/Services/AuthManager.swift:17-31 | after any sign-in, logout leaves the user signed out with no token sent |
| Cache.FloorSecond | ios/ChronoForge/ChronoForge/Data/Cache/PlanCache.swift:15 | the whole second holding an instant: at most the instant, less than a second before it, a multiple of 1000 ms |
| Cache.WholeSeconds | ios/ChronoForge/ChronoForge/Data/Cache/PlanCache.swift:12-17 | the `.iso8601` encoder cuts every block's start and end to its second and keeps everything else |
| Cache.WholeSecondsExact | ios/ChronoForge/ChronoForge/Data/Cache/PlanCache.swift:15 | a plan survives encoding unchanged if and only if all its instants are whole seconds |
| Cache.WholeSecondsIdempotent | ios/ChronoForge/ChronoForge/Data/Cache/PlanCache.swift:15 | encoding an encoded plan again changes nothing |
| Cache.PlanCache.constructor | ios/ChronoForge/ChronoForge/Data/Cache/PlanCache.swift:7-10 | the slot holds whatever file is on disk |
| Cache.AfterSave | ios/ChronoForge/ChronoForge/Data/Cache/PlanCache.swift:26-29 | the file after each outcome of the encode and the non-atomic `write(to:)`: the encoded plan cut to whole seconds, the earlier file unchanged, or an unreadable file |
| Cache.PlanCache.Save | ios/ChronoForge/ChronoForge/Data/Cache/PlanCache.swift:26-29 | the file after the save is `AfterSave` of the earlier file: a completed write holds the encoded plan; a failed encode, or a write failing before it touches the file, leaves the earlier snapshot; a write cut short leaves an unreadable file |
| Cache.PlanCache.Load | ios/ChronoForge/ChronoForge/Data/Cache/PlanCache.swift:31-34 | a plan exactly when the file exists and decodes, and then the stored plan; absent and corrupt both give nil |
| Cache.PlanCache.Clear | ios/ChronoForge/ChronoForge/Data/Cache/PlanCache.swift:36-38 | the slot is empty, whether or not it was before |
| Cache.SaveThenLoad | ios/ChronoForge/ChronoForge/Data/Cache/PlanCache.swift:12-34 | save then load gives the plan cut to whole seconds, and exactly the plan when its instants are whole seconds |
| Cache.LatestSaveWins | ios/ChronoForge/ChronoForge/Data/Cache/PlanCache.swift:26-34 | of two successful saves only the later plan loads |
| Cache.FailedSaveKeepsSnapshot | ios/ChronoForge/ChronoForge/Data/Cache/PlanCache.swift:26-29 | a save whose encode fails, or whose write fails before touching the file, leaves what loads unchanged |
| Cache.TruncatedSaveLosesSnapshot | ios/ChronoForge/ChronoForge/Data/Cache/PlanCache.swift:26-34 | a write cut short loses the previous snapshot: a stored plan loads before the save and nothing loads after it |
| Cache.ClearThenLoad | ios/ChronoForge/ChronoForge/Data/Cache/PlanCache.swift:31-38 | after one or two clears nothing loads |
| Models.NewCalendarEvent | ios/ChronoForge/ChronoForge/Domain/Models/Models.swift:33-40 | `isAllDay` defaults to false and `source` to "google_calendar"; the other fields are as given |
| Models.TimeWindowCases | ios/ChronoForge/ChronoForge/Domain/Models/Models.swift:83-92 | exactly three windows, labelled "Morning (7-12)", "Afternoon (12-17)" and "Evening (17-22)" |
| Models.CategoryFromRaw | ios/ChronoForge/ChronoForge/Domain/Models/Models.swift:95-96 | decoding a raw value gives the case carrying that raw value |
| Models.CategoryCases | ios/ChronoForge/ChronoForge/Domain/Models/Models.swift:95-109 | exactly six distinct categories; every raw value decodes back to its case; distinct cases have distinct raw values and distinct icons, so `iconName` is total and one-to-one |
| Models.NewGoalCreate | ios/ChronoForge/ChronoForge/Domain/Models/Models.swift:120-129 | the defaults: study, priority 5, 5.0 weekly hours, no windows, no deadline |
| Models.BlockIdSplits | ios/ChronoForge/ChronoForge/Domain/Models/Models.swift:150 | for instants from 1970 on, two blocks with the same id have the same goal id and the same start seconds, so block identity is the pair (goal id, start) |
| Text.SecondsText | ios/ChronoForge/ChronoForge/Domain/Models/Models.swift:150 | the printed `timeIntervalSince1970` of an instant from 1970 on holds no dash |
| Text.NatText | ios/ChronoForge/ChronoForge/Domain/Models/Models.swift:150 | a decimal rendering: at least one character, all digits |
| Text.ContainsPrefix | server/app/services/google_service.py:164-167 | a text that contains `p + q` contains `p` |
| Text.Lower | server/app/services/google_service.py:159-166 | lower-casing keeps the length and lower-cases each character in place |
| Network.APIError.Description | ios/ChronoForge/ChronoForge/Data/Network/APIClient.swift:12-20 | the texts of the unauthorized, network and server errors |
| Network.UnauthorizedOnly | ios/ChronoForge/ChronoForge/Data/Network/APIClient.swift:22-25 | `isUnauthorized` holds exactly for `.unauthorized`, whose text differs from every other case's |
| Network.Execute | ios/ChronoForge/ChronoForge/Data/Network/APIClient.swift:100-127 | a throw becomes `.networkError`; a non-HTTP response becomes `.serverError(0, "Invalid response")`; 401 becomes `.unauthorized`, checked before the 2xx range; any other status outside 200...299 becomes `.serverError(code, body)`; a 2xx body that does not decode becomes `.decodingError`; otherwise the decoded value; never `.invalidURL` |
| Network.Thrown | ios/ChronoForge/ChronoForge/Data/Network/APIClient.swift:82-92 | an `APIError` thrown through a method that may also rethrow an encoder error: success and value kept, the error carried as an API error |
| Network.APIClient.constructor | ios/ChronoForge/ChronoForge/Data/Network/APIClient.swift:44-50 | keeps the base URL and the token provider |
| Network.APIClient.ApplyAuth | ios/ChronoForge/ChronoForge/Data/Network/APIClient.swift:94-98 | "Bearer <token>" is set when the provider returns a token; otherwise the request is unchanged |
| Network.APIClient.Get | ios/ChronoForge/ChronoForge/Data/Network/APIClient.swift:70-80 | nothing is sent and `.invalidURL` is thrown exactly when `URLComponents` forms no URL; otherwise a GET on base URL + path with the query, an Authorization header exactly when a token is stored, and the classified outcome; a base URL + path that does not parse is excluded, because the source force-unwraps it |
| Network.APIClient.Post | ios/ChronoForge/ChronoForge/Data/Network/APIClient.swift:82-92 | nothing is sent exactly when `URL(string:)` fails, which throws `.invalidURL`, or the encoder throws, whose error is rethrown as it is; otherwise a POST with the JSON content type, the encoded body when there is one, an Authorization header exactly when a token is stored, and the classified outcome |
| Network.TokenReadPerRequest | ios/ChronoForge/ChronoForge/Data/Network/APIClient.swift:94-98 | the provider is evaluated on every request: a sign-in between two requests adds the header to the second, and a logout removes it |
| Dashboard.BlockId | ios/ChronoForge/ChronoForge/UI/Dashboard/DashboardViewModel.swift:102-104 | the block id sent with a check-in is the same string as `PlannedBlock.id` |
| Dashboard.PendingBlockQualifies | ios/ChronoForge/ChronoForge/UI/Dashboard/DashboardViewModel.swift:94-100 | the block offered is one of today's blocks, not fixed, ended strictly before now and strictly less than 7200 s before now, and no check-in carries its id |
| Dashboard.PendingBlockIsFirst | ios/ChronoForge/ChronoForge/UI/Dashboard/DashboardViewModel.swift:97-99 | the block offered is the first waiting one in `todayBlocks` order, and none is offered exactly when no block is waiting |
| Dashboard.NextBlockNeedingCheckIn | ios/ChronoForge/ChronoForge/UI/Dashboard/DashboardViewModel.swift:94-100 | `first(where:)` over today's blocks of a block waiting for a check-in; `PendingBlockQualifies`, `PendingBlockIsFirst` and `RecordedBlockNotOffered` state what it offers |
| Dashboard.RecordedBlockNotOffered | ios/ChronoForge/ChronoForge/UI/Dashboard/DashboardViewModel.swift:96-98 | a block whose id some record carries is never offered |
| Dashboard.SameIdentityShareRecord | ios/ChronoForge/ChronoForge/UI/Dashboard/DashboardViewModel.swift:102-104 | two blocks with the same goal and start share one record: a check-in for one keeps the other from being offered |
| Dashboard.GraceWindowExample | ios/ChronoForge/ChronoForge/UI/Dashboard/DashboardViewModel.swift:98 | a block ending at 11:00 is offered at 12:30, not at 13:00 when exactly two hours have passed, and not once recorded |
| Dashboard.FixedNeverOffered | ios/ChronoForge/ChronoForge/UI/Dashboard/DashboardViewModel.swift:98 | a fixed block is never offered |
| Dashboard.StartsOn | ios/ChronoForge/ChronoForge/UI/Dashboard/DashboardViewModel.swift:42 | `isDateInToday` on a block's start, with today passed in as a range; `BlocksOnKeepsDay` states what filtering by it keeps |
| Dashboard.BlocksOn | ios/ChronoForge/ChronoForge/UI/Dashboard/DashboardViewModel.swift:42 | `filter { isDateInToday($0.start) }`, in plan order; `BlocksOnKeepsDay` states that exactly the day's blocks are kept, each as often as in the plan |
| Dashboard.BlocksOnKeepsDay | ios/ChronoForge/ChronoForge/UI/Dashboard/DashboardViewModel.swift:42 | the day filter keeps exactly the blocks starting that day, each exactly as often as in the plan, and no block of another day |
| Dashboard.InsertByStartPermutes | ios/ChronoForge/ChronoForge/UI/Dashboard/DashboardViewModel.swift:43 | insertion adds the block and keeps the others |
| Dashboard.InsertByStartSorted | ios/ChronoForge/ChronoForge/UI/Dashboard/DashboardViewModel.swift:43 | insertion keeps starts ascending |
| Dashboard.SortedByStart | ios/ChronoForge/ChronoForge/UI/Dashboard/DashboardViewModel.swift:43 | `sorted { $0.start < $1.start }` by insertion; `SortedByStartSorts` states that it is a permutation with ascending starts |
| Dashboard.SortedByStartSorts | ios/ChronoForge/ChronoForge/UI/Dashboard/DashboardViewModel.swift:43 | the sort by start is a permutation with ascending starts |
| Dashboard.SortedByStartPermutes | ios/ChronoForge/ChronoForge/UI/Dashboard/DashboardViewModel.swift:43 | the sort by start keeps every block as often as before |
| Dashboard.SortedByStartAscends | ios/ChronoForge/ChronoForge/UI/Dashboard/DashboardViewModel.swift:43 | the sort by start gives ascending starts |
| Dashboard.SortedDayBlocks | ios/ChronoForge/ChronoForge/UI/Dashboard/DashboardViewModel.swift:42-43 | today's blocks after a fetch are exactly the plan's blocks of the day, each exactly as often as in the plan, with ascending starts |
| Dashboard.CapacityFor | ios/ChronoForge/ChronoForge/UI/Dashboard/DashboardViewModel.swift:44 | `capacityByDay.first { $0.date == todayStr }`; `CapacityForIsFirst` states that it is the first entry with the key, and none exactly when no entry has it |
| Dashboard.CapacityForIsFirst | ios/ChronoForge/ChronoForge/UI/Dashboard/DashboardViewModel.swift:44 | the capacity shown is the first entry whose date is today's key, and there is none exactly when no entry has that key |
| Dashboard.FirstStartingAfter | ios/ChronoForge/ChronoForge/UI/Dashboard/DashboardViewModel.swift:76-78 | the block found starts after now and is one of today's; none exactly when no block starts after now |
| Dashboard.DashboardViewModel.constructor | ios/ChronoForge/ChronoForge/UI/Dashboard/DashboardViewModel.swift:5-22 | every published field starts empty, nil or false |
| Dashboard.DashboardViewModel.LoadData | ios/ChronoForge/ChronoForge/UI/Dashboard/DashboardViewModel.swift:24-74 | on success: the plan is saved and today's blocks are sorted and filtered from it, with capacity, messages, feeds (failed ones empty or nil), reminders and pending block; on failure: `needsReconnect` exactly for unauthorized, the error text only otherwise, the cached plan's blocks unsorted with one notice, capacity and pending block untouched, earlier blocks and messages kept when nothing is cached; `isLoading` false on every exit |
| Dashboard.DashboardViewModel.ShowFetchedPlan | ios/ChronoForge/ChronoForge/UI/Dashboard/DashboardViewModel.swift:34-55 | saves the plan, reschedules every reminder, then shows the plan and feeds |
| Dashboard.DashboardViewModel.ShowPlan | ios/ChronoForge/ChronoForge/UI/Dashboard/DashboardViewModel.swift:42-55 | sets exactly the fields the success path shows |
| Dashboard.DashboardViewModel.RescheduleReminders | ios/ChronoForge/ChronoForge/UI/Dashboard/DashboardViewModel.swift:50-51 | the registry holds the reminders of one refresh for the plan's blocks and the fetched tasks |
| Dashboard.DashboardViewModel.ShowFallback | ios/ChronoForge/ChronoForge/UI/Dashboard/DashboardViewModel.swift:57-71 | unauthorized sets `needsReconnect` and keeps the error text; any other error sets the text; a cached plan replaces today's blocks unsorted and the messages plus the matching notice |
| Dashboard.DashboardViewModel.NextBlock | ios/ChronoForge/ChronoForge/UI/Dashboard/DashboardViewModel.swift:76-78 | the first of today's blocks starting after now |
| Dashboard.DashboardViewModel.TotalAllocatedToday | ios/ChronoForge/ChronoForge/UI/Dashboard/DashboardViewModel.swift:80-82 | today's allocated hours, 0 without a capacity entry |
| Dashboard.DashboardViewModel.TotalFreeToday | ios/ChronoForge/ChronoForge/UI/Dashboard/DashboardViewModel.swift:84-86 | today's spare hours, 0 without a capacity entry |
| Dashboard.DashboardViewModel.SubmitCheckIn | ios/ChronoForge/ChronoForge/UI/Dashboard/DashboardViewModel.swift:106-123 | sends the record built from the block; on success sets the result, re-lists the records (a failed list gives []) and derives the pending block again; on failure only the error text changes |
| Dashboard.DashboardViewModel.DismissCheckInResult | ios/ChronoForge/ChronoForge/UI/Dashboard/DashboardViewModel.swift:125-127 | only the check-in result is cleared |
| Dashboard.DashboardViewModel.DismissCheckInPrompt | ios/ChronoForge/ChronoForge/UI/Dashboard/DashboardViewModel.swift:129-131 | only the pending block is cleared |
| Notifications.NotificationCenter.constructor | ios/ChronoForge/ChronoForge/Services/NotificationService.swift:93-94 | the registry starts empty |
| Notifications.NotificationCenter.Add | ios/ChronoForge/ChronoForge/Services/NotificationService.swift:38 | adding under an identifier replaces any request pending under it |
| Notifications.NotificationCenter.RemoveAllPending | ios/ChronoForge/ChronoForge/Services/NotificationService.swift:94 | every pending request is removed, whoever scheduled it |
| Notifications.Apply | ios/ChronoForge/ChronoForge/Services/NotificationService.swift:34-38 | the registry after a run of `add` calls in order; `ApplyKeys`, `ApplyLookup`, `ApplyIdempotent` and `ApplyConcat` state its keys, its requests, its idempotence and its composition |
| Notifications.ApplyKeys | ios/ChronoForge/ChronoForge/Services/NotificationService.swift:34 | after a run of additions the pending identifiers are the earlier ones plus the added ones |
| Notifications.ApplyLookup | ios/ChronoForge/ChronoForge/Services/NotificationService.swift:34 | an added identifier holds the last request added under it; any other keeps its earlier request |
| Notifications.ApplyIdempotent | ios/ChronoForge/ChronoForge/Services/NotificationService.swift:34 | repeating a run of additions changes nothing: identifiers are deterministic, so nothing is doubled |
| Notifications.ApplyConcat | ios/ChronoForge/ChronoForge/Services/NotificationService.swift:93-112 | two runs of additions in turn are one run of both |
| Notifications.IdsOfSize | ios/ChronoForge/ChronoForge/Services/NotificationService.swift:97-100 | a run of additions adds at most as many identifiers as additions |
| Notifications.EventReminder | ios/ChronoForge/ChronoForge/Services/NotificationService.swift:19-38 | the identifier begins "event-" and the request fires `minutesBefore` minutes before the start |
| Notifications.CheckInReminder | ios/ChronoForge/ChronoForge/Services/NotificationService.swift:69-90 | the identifier begins "checkin-" and the request fires `minutesAfterEnd` minutes after the end |
| Notifications.CheckInAdditions | ios/ChronoForge/ChronoForge/Services/NotificationService.swift:69-71 | the check-in reminder is added exactly when it would fire after now, and then fires after now |
| Notifications.CanvasReminder | ios/ChronoForge/ChronoForge/Services/NotificationService.swift:41-66 | the identifier begins "canvas-" and the request fires that many hours before the due instant |
| Notifications.CanvasAdditionsMembers | ios/ChronoForge/ChronoForge/Services/NotificationService.swift:42-45 | a deadline reminder is made exactly for each lead time whose firing instant is after now |
| Notifications.CanvasAdditions | ios/ChronoForge/ChronoForge/Services/NotificationService.swift:41-66 | the additions `scheduleCanvasDeadline` makes, in lead-time order; `CanvasAdditionsMembers` states that each lead time firing after now gives exactly its reminder |
| Notifications.UpcomingBlocksKeepsUpcoming | ios/ChronoForge/ChronoForge/Services/NotificationService.swift:96 | exactly the blocks starting after now that are not fixed are kept |
| Notifications.UpcomingBlocks | ios/ChronoForge/ChronoForge/Services/NotificationService.swift:96 | the blocks starting after now that are not fixed, in input order; `UpcomingBlocksKeepsUpcoming` states it |
| Notifications.ConsideredBlocks | ios/ChronoForge/ChronoForge/Services/NotificationService.swift:97 | at most 50 blocks are reminded about |
| Notifications.ConsideredBlocksArePrefix | ios/ChronoForge/ChronoForge/Services/NotificationService.swift:96-97 | the blocks reminded about are the first of the upcoming non-fixed blocks in input order, all of them when there are at most 50 |
| Notifications.BlockAdditions | ios/ChronoForge/ChronoForge/Services/NotificationService.swift:97-100 | at most two additions per considered block |
| Notifications.BlockAdditionsMembers | ios/ChronoForge/ChronoForge/Services/NotificationService.swift:97-100 | an addition is made exactly for each considered block's event reminder and for its check-in reminder when that is ahead |
| Notifications.TaskAdditions | ios/ChronoForge/ChronoForge/Services/NotificationService.swift:104-105 | at most two reminders per task, none for a task without a due date |
| Notifications.DueDateAdditions | ios/ChronoForge/ChronoForge/Services/NotificationService.swift:103-112 | at most two reminders per task |
| Notifications.DueDateAdditionsFromDatedTasks | ios/ChronoForge/ChronoForge/Services/NotificationService.swift:103-112 | every due-date reminder belongs to a dated task and fires 24 h or 2 h before its due instant |
| Notifications.CanvasStep | ios/ChronoForge/ChronoForge/Services/NotificationService.swift:43-45 | one lead time adds its reminder exactly when it fires after now |
| Notifications.BlockStep | ios/ChronoForge/ChronoForge/Services/NotificationService.swift:97-100 | one block adds its event reminder, then its check-in reminder when ahead |
| Notifications.DueDateStep | ios/ChronoForge/ChronoForge/Services/NotificationService.swift:104-110 | one task adds its deadline reminders when it has a due date and nothing otherwise |
| Notifications.ScheduleEventReminder | ios/ChronoForge/ChronoForge/Services/NotificationService.swift:19-38 | adds the event reminder, with no guard against a past trigger |
| Notifications.ScheduleCheckInReminder | ios/ChronoForge/ChronoForge/Services/NotificationService.swift:69-90 | adds the check-in reminder only when it fires after now |
| Notifications.ScheduleCanvasDeadline | ios/ChronoForge/ChronoForge/Services/NotificationService.swift:41-67 | the reminders at 24 h and then 2 h before the due instant, each only when it fires after now |
| Notifications.ScheduleBlockReminders | ios/ChronoForge/ChronoForge/Services/NotificationService.swift:93-101 | clears the registry, then adds the reminders of the first 50 upcoming non-fixed blocks |
| Notifications.ScheduleDueDateReminders | ios/ChronoForge/ChronoForge/Services/NotificationService.swift:103-112 | adds the reminders of every dated task and cancels nothing |
| Notifications.BlockRemindersBound | ios/ChronoForge/ChronoForge/Services/NotificationService.swift:97-100 | one `scheduleBlockReminders` leaves at most 100 pending requests |
| Notifications.BlockRemindersPending | ios/ChronoForge/ChronoForge/Services/NotificationService.swift:93-101 | a request is pending after `scheduleBlockReminders` only when it is a considered block's event reminder, or its check-in reminder firing after now |
| Notifications.BlockRemindersCover | ios/ChronoForge/ChronoForge/Services/NotificationService.swift:93-101 | every considered block's event-reminder identifier is pending afterwards, and its check-in identifier too when that reminder fires after now |
| Notifications.LastRequestIsAdded | ios/ChronoForge/ChronoForge/Services/NotificationService.swift:34 | the request pending under an identifier is one that was added under it |
| Notifications.RefreshTwice | ios/ChronoForge/ChronoForge/Services/NotificationService.swift:93-112 | a refresh repeated with the same inputs and clock leaves the registry a single refresh leaves |
| Notifications.DueDateRemindersIdempotent | ios/ChronoForge/ChronoForge/Services/NotificationService.swift:103-112 | scheduling the due-date reminders twice is the same as once |
| Notifications.SingleBlockAdditions | ios/ChronoForge/ChronoForge/Services/NotificationService.swift:97-100 | a lone upcoming block whose check-in is ahead gets its event reminder, then its check-in reminder |
| Notifications.ApplyPair | ios/ChronoForge/ChronoForge/Services/NotificationService.swift:38 | two additions in turn |
| Notifications.PastEventReminderKept | ios/ChronoForge/ChronoForge/Services/NotificationService.swift:19-38 | a block starting ten minutes from now still gets an event reminder, firing five minutes in the past |
| PlanScreen.DatesFrom | ios/ChronoForge/ChronoForge/UI/Plan/PlanViewModel.swift:34 | at most one date per offset |
| PlanScreen.Dates | ios/ChronoForge/ChronoForge/UI/Plan/PlanViewModel.swift:31-35 | at most fourteen dates |
| PlanScreen.DatesFromTotal | ios/ChronoForge/ChronoForge/UI/Plan/PlanViewModel.swift:34 | with a calendar that can always add days, one date per offset, in offset order |
| PlanScreen.FixedLengthDates | ios/ChronoForge/ChronoForge/UI/Plan/PlanViewModel.swift:31-35 | with 24-hour days the dates are consecutive midnights from the start |
| PlanScreen.FixedLengthDays | ios/ChronoForge/ChronoForge/UI/Plan/PlanViewModel.swift:31-35 | `dates` is the fourteen consecutive days from the start of today |
| PlanScreen.PlanViewModel.constructor | ios/ChronoForge/ChronoForge/UI/Plan/PlanViewModel.swift:5-14 | no plan, not loading, no error, today selected |
| PlanScreen.PlanViewModel.LoadPlan | ios/ChronoForge/ChronoForge/UI/Plan/PlanViewModel.swift:16-29 | clears the error; on success shows the plan and saves that same plan; on failure sets the error text and replaces the plan with whatever the cache loads, possibly nil; never loading at the end |
| PlanScreen.PlanViewModel.BlocksFor | ios/ChronoForge/ChronoForge/UI/Plan/PlanViewModel.swift:37-42 | `blocks(for:)`: the day filter then the sort by start over the plan's blocks, [] without a plan; `BlocksForDay` states its contents and order |
| PlanScreen.PlanViewModel.CapacityFor | ios/ChronoForge/ChronoForge/UI/Plan/PlanViewModel.swift:44-49 | `capacity(for:)`: the first entry under the day's key, nil without a plan; `CapacityForDay` states that it is the first such entry |
| PlanScreen.BlocksForDay | ios/ChronoForge/ChronoForge/UI/Plan/PlanViewModel.swift:37-42 | the day's blocks are exactly the plan's blocks starting that day, each exactly as often as in the plan, by ascending start; [] without a plan |
| PlanScreen.CapacityForDay | ios/ChronoForge/ChronoForge/UI/Plan/PlanViewModel.swift:44-49 | the entry shown carries the day's key and no earlier entry does, so it is the first; nil exactly when there is no plan or no entry has the key |
| PlanScreen.FailedRefreshShowsCachedPlan | ios/ChronoForge/ChronoForge/UI/Plan/PlanViewModel.swift:20-26 | a failed refresh after a successful one shows the cached copy of the first plan, and with nothing cached it shows no plan at all |
| MockApi.DayBlocks | ios/ChronoForge/ChronoForge/Data/Network/MockAPIClient.swift:159-191 | five blocks a day |
| MockApi.MockBlocks | ios/ChronoForge/ChronoForge/Data/Network/MockAPIClient.swift:155-191 | 14 × 5 = 70 blocks |
| MockApi.MockCapacity | ios/ChronoForge/ChronoForge/Data/Network/MockAPIClient.swift:193-201 | one capacity entry per day, fourteen in all |
| MockApi.BuildMockPlan | ios/ChronoForge/ChronoForge/Data/Network/MockAPIClient.swift:155-215 | the loop over fourteen days appending five blocks each builds exactly the fixture plan |
| MockApi.DayOfIndex | ios/ChronoForge/ChronoForge/Data/Network/MockAPIClient.swift:159 | block `i` belongs to day `i / 5` |
| MockApi.DayBlocksShape | ios/ChronoForge/ChronoForge/Data/Network/MockAPIClient.swift:159-191 | within a day only the stand-up is fixed, and every block starts inside the day |
| MockApi.MockBlocksShape | ios/ChronoForge/ChronoForge/Data/Network/MockAPIClient.swift:159-191 | exactly one fixed block per day, the first of the day's five, and block `i` starts inside day `i / 5` |
| MockApi.MockCapacityShape | ios/ChronoForge/ChronoForge/Data/Network/MockAPIClient.swift:196-201 | every capacity entry has 17 hours in all, 5.5 allocated and 11.5 spare |
| MockApi.MockPlanShape | ios/ChronoForge/ChronoForge/Data/Network/MockAPIClient.swift:203-214 | 70 blocks and 14 capacity entries |
| MockApi.DispatchOrder | ios/ChronoForge/ChronoForge/Data/Network/MockAPIClient.swift:23-61 | a path holding "/plan/insights" also holds "/plan", so the insights test must come first; past the earlier tests such a path gets the insights and every other "/plan" path (generate, tradeoff) gets the plan; "/checkins" gives the submission reply for POST and the record list otherwise; anything else gets "{}" |
| MockApi.MockData | ios/ChronoForge/ChronoForge/Data/Network/MockAPIClient.swift:23-61 | `mockData`: the first matching substring test answers, "/plan/insights" before "/plan", "/checkins" by method, and "{}" for an unmatched path; `DispatchOrder` states the order |
| MockApi.FirstFive | ios/ChronoForge/ChronoForge/Data/Network/MockAPIClient.swift:159-191 | the fixture's first five blocks are today's |
| MockApi.LaterDays | ios/ChronoForge/ChronoForge/Data/Network/MockAPIClient.swift:159-160 | every later block starts on a later day |
| MockApi.LaterIndices | ios/ChronoForge/ChronoForge/Data/Network/MockAPIClient.swift:159-160 | blocks after the first five start on a later day |
| MockApi.FirstDayBlocks | ios/ChronoForge/ChronoForge/Data/Network/MockAPIClient.swift:159-191 | today's filter keeps exactly the first day's five blocks |
| MockApi.DashboardShowsFixture | ios/ChronoForge/ChronoForge/UI/Dashboard/DashboardViewModel.swift:34-45 | a dashboard refresh over the fixture plan shows five blocks today and the plan's messages |
| MockApi.FixtureToday | ios/ChronoForge/ChronoForge/Data/Network/MockAPIClient.swift:155-215 | the fixture shows five blocks today and carries coaching messages |
| Intervals.CoveredTransitive | server/app/services/scheduler.py:86-91 | a span inside a span that lies inside a merged span lies inside that merged span |
| Intervals.MergeStartsAtMost | server/app/services/scheduler.py:86-91 | merging never moves a start past a bound every input start respects |
| Intervals.MergeStepSeparated | server/app/services/scheduler.py:87-91 | one merge step keeps the merged list proper and strictly apart when the new span starts no earlier than every merged one |
| Intervals.MergeStepCovers | server/app/services/scheduler.py:87-91 | after one merge step the new span, and every span already covered, lies inside some merged span |
| Intervals.MergeSeparates | server/app/services/scheduler.py:84-91 | merging spans sorted by start gives proper spans each ending strictly before the next begins, and every input span lies inside one of them |
| Intervals.Merge | server/app/services/scheduler.py:86-91 | the fold of merge steps over spans sorted by start; `MergeSeparates` proves its spans proper, apart and covering every input, and `MergeAddsNothing` that it adds no instant |
| Intervals.MergeAddsNothing | server/app/services/scheduler.py:86-91 | every instant of a merged span lies in some input span: merging adds no time |
| Intervals.GapsAfterCursor | server/app/services/scheduler.py:93-100 | every gap is non-empty and starts at or after the cursor |
| Intervals.SeparatedTail | server/app/services/scheduler.py:86-91 | dropping the first merged span keeps the rest apart |
| Intervals.GapsOrdered | server/app/services/scheduler.py:93-100 | the gaps come in order, each ending by the time the next starts |
| Intervals.GapsApart | server/app/services/scheduler.py:93-100 | no gap overlaps any merged span |
| Intervals.GapsEndBy | server/app/services/scheduler.py:93-100 | no gap runs past the day's end when every merged span starts by it |
| Intervals.ApartFromCovered | server/app/services/scheduler.py:86-100 | a gap clear of every merged span is clear of every span they cover |
| Intervals.Gaps | server/app/services/scheduler.py:93-100 | the cursor sweep over merged spans; `GapsAfterCursor`, `GapsOrdered`, `GapsApart` and `GapsEndBy` prove the gaps non-empty, ordered, clear of the merged spans and within the day, and `GapsKeepFree` that they miss no free instant |
| Intervals.GapsKeepFree | server/app/services/scheduler.py:93-100 | every instant from the cursor up to the end that no merged span holds lies in one of the gaps |
| Intervals.FreeInstantInGap | server/app/services/scheduler.py:84-100 | for sorted proper spans, an instant of the day that no span holds lies in a gap of their merge, inside the day and disjoint from every span |
| Scheduler.ReplaceHour | server/app/services/scheduler.py:60-65 | `replace(hour=h)` succeeds exactly for hours 0 to 23 |
| Scheduler.OnDay | server/app/services/scheduler.py:60-65 | an instant `s` seconds past midnight has that midnight and the hour `s / 3600` |
| Scheduler.ReplaceHourOnDay | server/app/services/scheduler.py:60-65 | the replaced instant stays on the same day and has the requested hour |
| Scheduler.MidnightIsMidnight | server/app/services/scheduler.py:152 | truncating to midnight gives a multiple of a day no later than the instant and within a day of it |
| Scheduler.WindowsTile | server/app/services/scheduler.py:35-40 | morning 7-12, afternoon 12-17 and evening 17-22 tile 07:00 to 22:00 without overlap |
| Scheduler.TimeWindowRange | server/app/services/scheduler.py:35-40 | the hours (7, 12), (12, 17) and (17, 22) of the three windows, which `WindowsTile` proves tile 07:00 to 22:00 |
| Scheduler.SlotInWindowAsWritten | server/app/services/scheduler.py:43-45 | the start hour at least the window's first and the end hour at most its last, read off each instant's own day; `MidnightEndPassesAsWritten` shows what this lets through |
| Scheduler.MidnightEndPassesAsWritten | server/app/services/scheduler.py:43-45 | the hour comparison lets the slot 07:00-24:00 pass as a morning slot, while the intended test refuses it |
| Scheduler.SlotInWindowMeans | server/app/services/scheduler.py:43-45 | a non-empty slot passes the corrected window test exactly when every instant of it lies in one of the window's hours |
| Scheduler.SleepSpans | server/app/services/scheduler.py:60-73 | the sleep spans exist exactly when both sleep hours are valid hours |
| Scheduler.EventSpan | server/app/services/scheduler.py:75-82 | the whole day for an all-day event, else the event clipped to the day when that is non-empty; `EventSpansProper` and `EventSpansHold` prove its spans proper and blocked |
| Scheduler.Blocked | server/app/services/scheduler.py:58-82 | the sleep spans followed by each event's span, None where the sleep hours raise; `CollectBlocked` computes it and `BlockedProper` proves it proper on a whole day |
| Scheduler.FreeBlocks | server/app/services/scheduler.py:48-103 | the gaps between the merged, sorted blocked spans lasting thirty minutes or more; `FreeSlotsInDay` and `FreeSlotsAvoidSleepAndEvents` prove it sound, `FreeTimeKept` complete |
| Scheduler.ComputeFreeBlocks | server/app/services/scheduler.py:48-103 | the collecting, sorting, merging and sweeping loops compute exactly `FreeBlocks`, the free slots of the day, which `FreeSlotsInDay` proves sound and `FreeTimeKept` complete |
| Scheduler.CollectBlocked | server/app/services/scheduler.py:58-82 | the loop over the events collects the sleep spans followed by each event's clipped span, or the whole day for an all-day event |
| Scheduler.MergeSorted | server/app/services/scheduler.py:86-91 | the merging loop computes the merge of the sorted blocked spans |
| Scheduler.SweepGaps | server/app/services/scheduler.py:93-100 | the cursor sweep computes the gaps between merged spans up to the day's end |
| Scheduler.FreeSlotsLongAndAfterStart | server/app/services/scheduler.py:102-103 | every free slot lasts at least thirty minutes and starts no earlier than the day |
| Scheduler.EventSpansProper | server/app/services/scheduler.py:75-82 | every clipped event span is proper and starts by the day's end |
| Scheduler.EventSpansHold | server/app/services/scheduler.py:75-82 | every event's span is among the blocked spans |
| Scheduler.BlockedProper | server/app/services/scheduler.py:58-82 | on a whole day every blocked span is proper and starts by the day's end |
| Scheduler.SortedBlocked | server/app/services/scheduler.py:84 | sorting the blocked spans by start keeps every one of them, in start order |
| Scheduler.FreeSlotsInDay | server/app/services/scheduler.py:48-103 | on a whole day the free slots lie inside the day, come in order without overlapping, and share no instant with any blocked span |
| Scheduler.FreeTimeKept | server/app/services/scheduler.py:48-103 | conversely, every instant of a whole day that no blocked span holds lies in a gap inside the day and clear of every blocked span, and that gap is among the free slots exactly when it lasts at least thirty minutes: only gaps under thirty minutes are dropped |
| Scheduler.GapHolding | server/app/services/scheduler.py:84-100 | the gap of the sorted, merged blocked spans holding a free instant, inside the day and clear of every blocked span |
| Scheduler.FreeSlotsAvoidSleepAndEvents | server/app/services/scheduler.py:60-103 | no free slot overlaps the sleep window or any timed event's part of the day |
| Scheduler.AllDayLeavesNoFreeTime | server/app/services/scheduler.py:76-77 | an all-day event leaves the day with no free slot |
| Scheduler.CoveredSpanInDayAwake | server/app/services/scheduler.py:48-103 | anything placed inside a free slot lies in the day and clear of sleep |
| Scheduler.CoveredSpanClearOfEvents | server/app/services/scheduler.py:75-103 | anything placed inside a free slot is clear of every timed event |
| Scheduler.FreeTimeMeansNoAllDay | server/app/services/scheduler.py:76-77 | a day with any free slot has no all-day event |
| Scheduler.EmptyDayFreeTime | server/tests/test_scheduler.py:18-25 | an empty day with sleep 0-7 leaves the single free slot 07:00-24:00, seventeen hours |
| Scheduler.OverlappingEventsMerge | server/tests/test_scheduler.py:42-54 | meetings 9-11 and 10-13 merge, leaving 07:00-09:00 and 13:00-24:00, thirteen hours |
| Scheduler.OverlappingEventsBlocked | server/tests/test_scheduler.py:42-54 | the night until 07:00 and both meetings are blocked on that day |
| Scheduler.OverlappingSpansFree | server/app/services/scheduler.py:84-103 | those three blocked spans leave the free slots 07:00-09:00 and 13:00-24:00 |
| Allocator.BlockHoursAppend | server/app/services/scheduler.py:209-212 | the hours of two runs of blocks add up |
| Allocator.FilteredHoursAppend | server/app/services/scheduler.py:209-212 | the hours of the blocks picked out of two runs add up |
| Allocator.FilteredHoursPermutation | server/app/services/scheduler.py:241 | reordering the blocks leaves the hours of those picked out unchanged |
| Allocator.SplitSlot | server/app/services/scheduler.py:106-113 | `_split_slot`, with the taken part rounded down to whole seconds; `SplitSlotParts`, `SplitSlotTakes` and `SplitSlotHours` state what it takes and keeps |
| Allocator.SplitSlotParts | server/app/services/scheduler.py:106-113 | the taken part starts the slot and lasts the need, or the whole slot when the need is larger; the remainder runs from the taken part's end to the slot's end and is kept exactly when it is longer than 29 minutes |
| Allocator.SplitSlotTakes | server/app/services/scheduler.py:106-109 | a need of at least a second takes a non-empty piece of a non-empty slot |
| Allocator.SplitSlotHours | server/app/services/scheduler.py:106-113 | the taken part and a kept remainder last no longer than the slot, and a dropped remainder is at most 29 minutes |
| Allocator.PlaceAsWritten | server/app/services/scheduler.py:195-214 | the slot loop with the `still_need <= 0` test on reals; `EmptyPieceAsWritten` exhibits the empty block it records |
| Allocator.EmptyPieceAsWritten | server/app/services/scheduler.py:195-214 | with half a second still needed after the first slot, the slot loop as written records an empty piece as a goal block |
| Allocator.AllocateGoal | server/app/services/scheduler.py:195-214 | the slot loop with the need compared in whole seconds: every goal block is non-empty and inside an ordered slot, every slot left is non-empty and inside one, the hours used are those of the blocks and never more than the need, and the slots left plus the hours used take no more time than the ordered slots had |
| Allocator.HoursKeptWhole | server/app/services/scheduler.py:197-199 | a slot kept whole keeps the slots left and the hours used within the ordered slots seen so far |
| Allocator.HoursKeptSplit | server/app/services/scheduler.py:200-214 | a split slot, its taken part used and a kept remainder left, keeps them within the ordered slots seen so far |
| Allocator.HoursKeptAll | server/app/services/scheduler.py:195-216 | after the last slot, the slots left and the hours used take no more time than all the ordered slots |
| Allocator.PreferredFirstOrders | server/app/services/scheduler.py:191-193 | the ordering is a permutation of the free slots with every slot in a preferred window before every slot outside them |
| Allocator.PreferredFirstCovered | server/app/services/scheduler.py:191-193 | reordering keeps each slot non-empty and inside the day's slots |
| Allocator.PreferredFirst | server/app/services/scheduler.py:191-193 | `ordered`: the slots in a preferred window, then the rest; `PreferredFirstOrders` proves it a permutation with the preferred slots first |
| Allocator.WorkingGoalsOrder | server/app/services/scheduler.py:129-142 | the working goals are the goals plus the simulated one, by non-increasing priority |
| Allocator.WorkingGoals | server/app/services/scheduler.py:129-142 | the goals plus the simulated one, sorted by priority, highest first, with a stable sort; `WorkingGoalsOrder` states the permutation and the order and `WorkingGoalsStable` the stability |
| Allocator.WorkingGoalsStable | server/app/services/scheduler.py:129-142 | working goals of one priority keep their order, the simulated goal after the stored ones, as Python's stable sort does |
| Allocator.TargetsOf | server/app/services/scheduler.py:147-148 | the allocation and target dictionaries have one key per goal id |
| Allocator.TargetsLastWins | server/app/services/scheduler.py:148 | of goals sharing an id, the target of the last one is kept |
| Allocator.Targets | server/app/services/scheduler.py:147-148 | the `weekly_target` dictionary built goal by goal; `TargetsOf` and `TargetsLastWins` state its keys and that the last goal of an id wins |
| Allocator.GoalPiecesPlaced | server/app/services/scheduler.py:197-208 | one goal's blocks, taken from slots inside the day's slots, lie inside the day's slots |
| Allocator.LeftCovered | server/app/services/scheduler.py:213-216 | the slots left of a goal's turn lie inside the day's slots |
| Allocator.RaiseAllocation | server/app/services/scheduler.py:210 | adding hours to a goal within what is left of its target never lowers an allocation nor pushes one past its target |
| Allocator.GoalHoursStep | server/app/services/scheduler.py:175-212 | one goal's turn keeps the day within its limits, the day's hours equal to its blocks' and every goal within its target |
| Allocator.GoalPlacementStep | server/app/services/scheduler.py:191-216 | one goal's turn keeps every block and every spare slot inside the day's slots |
| Allocator.GoalAccountStep | server/app/services/scheduler.py:191-216 | one goal's turn raises that goal's allocation by the hours of its new blocks and no other goal's, and takes what it used out of the spare slots, whose total reordering does not change |
| Allocator.DayGoalStep | server/app/services/scheduler.py:175-216 | one goal's turn keeps the day's limits, targets, placement and hour accounting |
| Allocator.GoalTurn | server/app/services/scheduler.py:175-216 | one goal's turn hands the slot loop the spare slots in preference order and uses at most what the goal can be given, keeping everything the day's loop maintains |
| Allocator.PlacedAppend | server/app/services/scheduler.py:202-208 | appending placed blocks to placed blocks keeps them all placed |
| Allocator.AllocateDay | server/app/services/scheduler.py:172-216 | the goal loop of one day: its hours are those of its blocks and stay within the deep-work and scheduled limits, no goal passes its weekly target, each goal's allocation grows by exactly the hours of its own blocks, every block belongs to a working goal and lies inside a free slot, every spare slot lies inside one, and the spare slots and the allocated hours together take no more than the day's free hours |
| Allocator.FixedBlockClipped | server/app/services/scheduler.py:160-168 | a fixed block carries the event's id and title, is marked fixed and lies inside its day |
| Allocator.DayEvents | server/app/services/scheduler.py:155-158 | the events ending after the day's start and starting before its end, in order; `InDayEvents` states that every overlapping event is kept |
| Allocator.FixedBlock | server/app/services/scheduler.py:160-168 | an event's fixed block clipped to the day; `FixedBlockClipped` states its id, title, fixed flag and bounds |
| Allocator.FixedBlocksFor | server/app/services/scheduler.py:160-168 | one fixed block per day event, in order; `FixedBlocksForEach` and `FixedBlocksOfDay` state it |
| Allocator.FixedBlocksForEach | server/app/services/scheduler.py:160-168 | a day gets one fixed block per event overlapping it, in the events' order |
| Allocator.FixedBlocksSound | server/app/services/scheduler.py:150-168 | every fixed block is the clipped block of an event overlapping one of the days |
| Allocator.DayBlocksComplete | server/app/services/scheduler.py:155-168 | every event overlapping a day has its fixed block on that day |
| Allocator.FixedBlocksComplete | server/app/services/scheduler.py:150-168 | every event/day overlap within the horizon has its fixed block |
| Allocator.FixedBlocksOfDay | server/app/services/scheduler.py:160-168 | the loop over the day's events builds exactly their fixed blocks |
| Allocator.UnmetEntriesSound | server/app/services/scheduler.py:226-237 | every unmet entry is that of a working goal, with its target over the days, what it got and a deficit of more than half an hour |
| Allocator.UnmetEntriesComplete | server/app/services/scheduler.py:226-237 | every goal more than half an hour short of its target over the days has an unmet entry |
| Allocator.UnmetEntries | server/app/services/scheduler.py:226-237 | the unmet entries of the working goals in order; `UnmetEntriesSound` and `UnmetEntriesComplete` state that they are exactly the goals more than half an hour short |
| Allocator.ComputeUnmet | server/app/services/scheduler.py:226-237 | the unmet loop builds exactly those entries |
| Allocator.FreeOnDayDefined | server/app/services/scheduler.py:60-73 | a day's free slots exist exactly when both sleep hours are valid |
| Allocator.FreeBlocksDefined | server/app/services/scheduler.py:60-73 | `compute_free_blocks` returns exactly when both sleep hours are valid hours |
| Allocator.DayStartsApart | server/app/services/scheduler.py:151-153 | the midnights of days `k` and `d` of the plan are `d - k` days apart |
| Allocator.SpareNotNegative | server/app/services/scheduler.py:218 | the spare hours of non-empty slots are never negative |
| Allocator.DaysAccountedStep | server/app/services/scheduler.py:150-224 | one more day's blocks keep every goal block before the next day, give the new capacity entry the hours of the day's goal blocks and leave earlier entries' hours unchanged, and raise each goal's allocation by the hours of its blocks |
| Allocator.DayEntriesAccounted | server/app/services/scheduler.py:211-224 | each capacity entry's allocated hours are those of the goal blocks starting on its day, after a day's blocks are appended |
| Allocator.GoalsAccounted | server/app/services/scheduler.py:209-210 | each goal's allocation is its starting value plus the hours of its blocks, after a day's blocks are appended |
| Allocator.DayBlocksPlaced | server/app/services/scheduler.py:160-216 | a day's fixed and goal blocks appended to earlier days' keep every goal block placed |
| Allocator.DayFixedBlocks | server/app/services/scheduler.py:160-168 | appending a day's blocks extends the fixed blocks by exactly that day's |
| Allocator.PlanDayStep | server/app/services/scheduler.py:150-224 | one more day of the loop extends the plan so far by that day's fixed blocks, goal blocks and capacity entry |
| Allocator.PlanDayAdds | server/app/services/scheduler.py:150-224 | the day the goal loop hands back extends the plan so far, with a capacity entry whose spare hours are those of non-empty slots inside the day's free slots, and extends what the hours account for |
| Allocator.SortedBlocks | server/app/services/scheduler.py:241 | sorting by start orders the blocks, keeps the fixed ones and keeps every goal block placed |
| Allocator.AccountsSorted | server/app/services/scheduler.py:239-241 | sorting the blocks by start leaves each goal's hours and each day's hours what the loop totalled |
| Allocator.InDayEvents | server/app/services/scheduler.py:155-158 | every event overlapping a day is among that day's events |
| Allocator.GoalBlockInDayAwake | server/app/services/scheduler.py:150-216 | a goal block lies inside its day and clear of the sleep hours |
| Allocator.GoalBlockClearOfEvents | server/app/services/scheduler.py:150-216 | a goal block is clear of every timed event of its day |
| Allocator.GoalBlockNoAllDay | server/app/services/scheduler.py:76-77 | no goal block is placed on a day with an all-day event |
| Allocator.PlanDay | server/app/services/scheduler.py:150-224 | one day of the loop fails exactly where the free-block computation raises and otherwise extends the plan by that day, keeping every allocation within its target, each goal's allocation the hours of its blocks and each day's allocated hours those of its goal blocks |
| Allocator.PlanDays | server/app/services/scheduler.py:150-224 | the day loop fails exactly when there is a day to plan and a sleep hour is invalid, and otherwise builds the fixed blocks, placed goal blocks and capacity entries of every day, with each goal's allocation the hours of its blocks and each day's allocated hours those of the goal blocks starting on it |
| Allocator.WeeklyTargetCapsHorizon | server/app/services/scheduler.py:176-178 | because a goal never gets more than its weekly target, on a horizon of a week or more any goal whose scaled target exceeds the weekly one by over half an hour is listed as unmet |
| Allocator.GeneratePlan | server/app/services/scheduler.py:116-248 | raises exactly when there is a day to plan and a sleep hour is invalid; otherwise the blocks are sorted by start, the fixed ones are those of the event/day overlaps, every goal block is non-empty and inside a free slot of its day, there is one capacity entry per day with its free hours, allocated hours equal to those of its goal blocks and spare hours of slots inside its free slots with allocated plus spare at most free, each goal's allocation is the hours of its blocks and within its target, and the unmet entries are exactly the goals short of their target |
| Schemas.NewCalendarEvent | server/app/models/schemas.py:31-37 | an event built from id, title, start and end is timed, not all-day, and comes from "google_calendar" |
| Schemas.MakeGoalCreate | server/app/models/schemas.py:97-103 | a goal request is built exactly when the priority is 1 to 10 and the weekly target is positive, and then carries the given fields |
| Schemas.DefaultsValid | server/app/models/schemas.py:97-103 | a request given only a name is a study goal of priority 5, five hours a week, with no windows and no deadline, and passes the constraints |
| Schemas.GoalFromKeepsRequest | server/app/models/schemas.py:105-107 | a goal carries every field of the request it was made from, plus its id and creation time |
| Schemas.GoalBlock | server/app/models/schemas.py:124-130 | a block built without `is_fixed` is a goal block with the given fields |
| Schemas.NewInsights | server/app/models/schemas.py:174-178 | insights built from their three texts are marked available |
| CheckinStore.Record | server/app/services/checkin_store.py:25-36 | the stored check-in carries the request's fields, the given assessment and message, a fresh id and the time of the call |
| CheckinStore.SliceTo | server/app/services/checkin_store.py:42 | `s[:limit]` keeps a prefix: the first `limit` elements, or all but the last `-limit` for a negative limit |
| CheckinStore.NewestFirstOrders | server/app/services/checkin_store.py:41 | sorting by creation time, newest first, keeps every record and orders them from newest to oldest |
| CheckinStore.NewestFirst | server/app/services/checkin_store.py:41 | `sorted(..., key=created_at, reverse=True)` as a stable sort on the negated time; `NewestFirstOrders` and `NewestFirstStable` state it |
| CheckinStore.NewestFirstStable | server/app/services/checkin_store.py:41 | records created at the same time keep their insertion order, as Python's stable sort does |
| CheckinStore.Recent | server/app/services/checkin_store.py:40-42 | the first `limit` records of the newest-first order; `RecentAreNewest` states that they are the newest |
| CheckinStore.RecentAreNewest | server/app/services/checkin_store.py:40-42 | `list_recent` returns at most `limit` of the user's records, newest first, and every record it leaves out is no newer than any it returns |
| CheckinStore.LeftOutNoNewer | server/app/services/checkin_store.py:40-42 | no record left out of `list_recent` is newer than one it returns |
| CheckinStore.LatestListedFirst | server/app/services/checkin_store.py:37-42 | a record added later than every other comes first whenever the limit is positive |
| CheckinStore.Summary | server/app/services/checkin_store.py:52 | a summary line is the goal name, a colon and a space, and what was done |
| CheckinStore.Summaries | server/app/services/checkin_store.py:52 | one summary line per record, in order |
| CheckinStore.RecentSummariesBounded | server/app/services/checkin_store.py:50-52 | `recent_summaries` has at most `limit` lines, each the summary of one of the user's records |
| CheckinStore.FindAfterAppend | server/app/services/checkin_store.py:37-48 | after an `add` the earliest record of a block is still the one found, and a block recorded for the first time finds the new record |
| CheckinStore.CheckInStore.constructor | server/app/services/checkin_store.py:10-11 | the store starts with no users |
| CheckinStore.CheckInStore.List | server/app/services/checkin_store.py:13-16 | the user's list, created empty on first access; nothing else changes |
| CheckinStore.CheckInStore.Add | server/app/services/checkin_store.py:18-38 | exactly one record is appended to the user's list, with no duplicate check; other users' lists are unchanged |
| CheckinStore.CheckInStore.ListRecent | server/app/services/checkin_store.py:40-42 | the user's records newest first, cut to the limit; only the user's empty list may be created |
| CheckinStore.CheckInStore.GetByBlock | server/app/services/checkin_store.py:44-48 | the scan returns the earliest-inserted record of the block, or None |
| CheckinStore.CheckInStore.RecentSummaries | server/app/services/checkin_store.py:50-52 | the summary lines of the recent records, in order |
| CheckinStore.AddTwiceKeepsBoth | server/app/services/checkin_store.py:18-38 | submitting the same request twice stores two records of that block |
| GoalStore.DefaultStudyGoal | server/app/services/goal_store.py:9-19 | the default goal is "Study / Homework", study, priority 7, ten hours a week, no windows, no deadline, and passes the field constraints |
| GoalStore.Put | server/app/services/goal_store.py:42 | `goals[g.id] = g` on an insertion-ordered dictionary; `PutFresh`, `PutThenLookup`, `PutIds` and `PutKeepsUnique` state what it keeps and adds |
| GoalStore.Lookup | server/app/services/goal_store.py:45-46 | `goals.get(id)`; `LookupFinds` proves it finds a stored goal with the id, and nothing exactly when none has it |
| GoalStore.LookupFinds | server/app/services/goal_store.py:45-46 | a lookup finds a stored goal with that id, and finds nothing exactly when no stored goal has it |
| GoalStore.PutFresh | server/app/services/goal_store.py:42 | storing a goal under a new id appends it |
| GoalStore.PutThenLookup | server/app/services/goal_store.py:42-46 | after storing, the goal's id finds it and every other id finds what it found before |
| GoalStore.PutIds | server/app/services/goal_store.py:42 | storing keeps every id and adds the goal's |
| GoalStore.PutKeepsUnique | server/app/services/goal_store.py:42 | storing keeps ids distinct |
| GoalStore.Ensured | server/app/services/goal_store.py:26-30 | a user seen for the first time gets exactly the default goal; every other user's goals are unchanged |
| GoalStore.EnsureIdempotent | server/app/services/goal_store.py:26-30 | a second `_ensure_user` seeds nothing, whatever uuid and clock it is given |
| GoalStore.GoalStore.constructor | server/app/services/goal_store.py:22-24 | the store starts empty, with its invariant |
| GoalStore.GoalStore.EnsureUser | server/app/services/goal_store.py:26-30 | seeds a new user with the default goal and keeps every user's goals non-empty with distinct ids |
| GoalStore.GoalStore.ListGoals | server/app/services/goal_store.py:32-33 | the user's goals in insertion order, never empty |
| GoalStore.GoalStore.CreateGoal | server/app/services/goal_store.py:35-43 | the new goal carries the request under the new id; it is stored and found by `get_goal`, and a fresh id grows the user's goals by exactly that goal |
| GoalStore.GoalStore.GetGoal | server/app/services/goal_store.py:45-46 | the user's goal with that id, None for an unknown id, after seeding a new user |
| TokenStore.FernetKey | server/app/services/crypto.py:7-11 | the configured key when there is one, otherwise a freshly generated key |
| TokenStore.Decrypt | server/app/services/crypto.py:18-19 | decryption succeeds exactly under the key the token was sealed with |
| TokenStore.DecryptEncrypt | server/app/services/crypto.py:14-19 | decryption undoes encryption under the same key and fails under any other |
| TokenStore.RoundTripNeedsConfiguredKey | server/app/services/crypto.py:7-19 | with a key configured the refresh token round-trips; with none, two different generated keys lose it |
| TokenStore.UserTokens.constructor | server/app/services/token_store.py:11-16 | every field starts as None |
| TokenStore.UserTokens.SetGoogleRefresh | server/app/services/token_store.py:18-19 | stores the token sealed under the key in force |
| TokenStore.UserTokens.GetGoogleRefresh | server/app/services/token_store.py:21-24 | None when nothing is stored, otherwise the stored token decrypted with the key in force, or the decryption error |
| TokenStore.TokenStore.constructor | server/app/services/token_store.py:27-29 | the store starts with no users |
| TokenStore.TokenStore.GetOrCreate | server/app/services/token_store.py:31-34 | the user's existing record, or a fresh all-None one now stored |
| TokenStore.TokenStore.Get | server/app/services/token_store.py:36-37 | the user's record if there is one, never inserting |
| TokenStore.AssignmentsPersist | server/app/services/token_store.py:31-34 | two `get_or_create` calls hand back the same record, so a field assigned through one is read through the other |
| TokenStore.RefreshRoundTrip | server/app/services/token_store.py:18-24 | under a configured key, a refresh token set on a record is read back |
| PlanRouter.FixedEventsOf | server/app/routers/plan.py:19-26 | the fetched events when the user has a non-empty access token and the fetch succeeds; no events for an unknown user, a missing or empty token, or a failed fetch |
| PlanRouter.InsightsAnswer | server/app/routers/plan.py:87-100 | an empty answer gives an unavailable reply with empty texts; otherwise the three texts, available |
| PlanRouter.PlanRoutes.constructor | server/app/routers/plan.py:16 | the plan memo starts empty |
| PlanRouter.PlanRoutes.FixedEvents | server/app/routers/plan.py:19-26 | the route's event lookup is `FixedEventsOf` of the user's stored token |
| PlanRouter.PlanRoutes.BuildPlan | server/app/routers/plan.py:34-43 | lists the user's goals (seeding a first visitor), fetches the fixed events and returns a plan meeting every promise of `generate_plan` for them |
| PlanRouter.PlanRoutes.Generate | server/app/routers/plan.py:29-45 | always regenerates, with the simulated goal when the body has one, and overwrites the user's memo entry |
| PlanRouter.PlanRoutes.CurrentPlan | server/app/routers/plan.py:48-57 | the memoised plan with nothing touched; otherwise a freshly generated plan, now memoised |
| PlanRouter.PlanRoutes.Tradeoff | server/app/routers/plan.py:60-70 | without a simulated goal a 400 "simulate_goal is required" and nothing touched; otherwise the trade-off report on the user's goals and fixed events, with the memo untouched |
| PlanRouter.PlanRoutes.PlanInsights | server/app/routers/plan.py:73-100 | memoises a plan first when there is none, then reports the insights on the memoised plan, unavailable when the answer is empty |
| PlanRouter.CurrentPlanIsStable | server/app/routers/plan.py:48-57 | two `current_plan` calls in a row return the same plan |
| PlanRouter.CurrentAfterGenerate | server/app/routers/plan.py:29-57 | after `generate`, `current_plan` returns the generated plan, simulated goal and all |
| CheckinsRouter.CheckinRoutes.constructor | server/app/routers/checkins.py:6 | the routes share the one check-in store |
| CheckinsRouter.CheckinRoutes.SubmitCheckin | server/app/routers/checkins.py:13-43 | a 503 with the configuration message and no record when the assessment service gives nothing; otherwise exactly one record appended with the service's assessment and message, echoed in the response with the record's id, without looking for an earlier record of the block |
| CheckinsRouter.CheckinRoutes.ListCheckins | server/app/routers/checkins.py:46-53 | the user's records newest first, cut to the limit |
| CheckinsRouter.SubmittedThenListed | server/app/routers/checkins.py:13-53 | an answered submission later than every earlier record is listed first, with the submitted fields and the returned id |
| Canvas.TaskOf | server/app/services/canvas_service.py:76-93 | an assignment is dropped exactly when it has a due string that does not parse or is due before now; a kept one is undated exactly when it had no due string, carries the parsed due date otherwise, and carries its course name, name and id |
| Canvas.AssignmentTasksCurrent | server/app/services/canvas_service.py:76-93 | every task a course contributes is undated or due now or later |
| Canvas.AssignmentTasks | server/app/services/canvas_service.py:76-93 | the tasks one course's assignments give, in listing order; `AssignmentTasksCurrent` states that each is undated or due now or later |
| Canvas.CollectedCurrent | server/app/services/canvas_service.py:62-93 | every gathered task is undated or due now or later |
| Canvas.CollectedAppend | server/app/services/canvas_service.py:62-93 | gathering over two runs of courses is gathering over each in turn |
| Canvas.Collected | server/app/services/canvas_service.py:62-93 | the tasks gathered course by course, before the sort; `CollectedCurrent`, `CollectedAppend` and `FailedCourseSkipped` state it |
| Canvas.FailedCourseSkipped | server/app/services/canvas_service.py:74-75 | a course whose assignments request failed is skipped, and only that course |
| Canvas.FetchedTasksOrdered | server/app/services/canvas_service.py:43-96 | empty when the course listing failed; otherwise a permutation of the gathered tasks sorted by due date, every one current, with undated tasks after every representable dated one |
| Canvas.FetchedTasks | server/app/services/canvas_service.py:43-96 | nothing when the course listing fails, otherwise the gathered tasks sorted by due date; `FetchedTasksOrdered` states it |
| Canvas.FetchTasks | server/app/services/canvas_service.py:43-96 | the nested loops over courses and assignments followed by the sort compute exactly `FetchedTasks` |
| Google.MatchesMeaning | server/app/services/google_service.py:164-167 | each found type is that of a keyword contained in the text, and some type is found exactly when some keyword is contained |
| Google.Matches | server/app/services/google_service.py:164-167 | the signal types of the keywords contained in the text, in keyword-table order; `MatchesMeaning` and `MatchesOrdered` state it |
| Google.MatchesRanked | server/app/services/google_service.py:22-33 | types found among the first keywords never rank above the last of them and come in rank order |
| Google.MatchesOrdered | server/app/services/google_service.py:22-33 | a signal's types follow the keyword table's order, which is the order of the signal types |
| Google.MatchesInAppend | server/app/services/google_service.py:164-167 | matching two runs of keywords is matching each in turn |
| Google.CountOfOthers | server/app/services/google_service.py:164-167 | keywords of other types add nothing to the count of a type |
| Google.MatchesAroundApplication | server/app/services/google_service.py:22-33 | the matches split into those before "apply", "apply", "application" and those after |
| Google.ApplicationTwice | server/app/services/google_service.py:25-26 | "application" appears once for "apply" and once for "application", so a text holding both words carries it twice |
| Google.HeaderMap | server/app/services/google_service.py:159 | every header name, lower-cased, is a key of the header dictionary |
| Google.SignalOf | server/app/services/google_service.py:158-183 | a message yields a signal exactly when a keyword occurs in its lower-cased subject and snippet; the signal carries the id, subject, sender, at most 200 characters of the snippet as a prefix, the matched types, and the Date header's time or the current time when it does not parse |
| Google.SignalsOf | server/app/services/google_service.py:148-184 | the signals of the listed messages, skipping replies other than 200; `SignalsSound` bounds and characterises them |
| Google.SignalsSound | server/app/services/google_service.py:148-184 | at most one signal per listed message, each from a message whose reply was 200, naming at least one type and keeping at most 200 characters of snippet |
| Google.FetchGmailSignals | server/app/services/google_service.py:138-184 | a failed listing raises; otherwise the loop over messages yields exactly `SignalsOf` of the listed ids |
| Google.Classify | server/app/services/google_service.py:164-167 | the keyword loop computes exactly the matched types |
| Google.EventOf | server/app/services/google_service.py:121-134 | a usable item becomes an event exactly when both times parse; the event is all-day exactly when the start has a date and no date-time, and carries the id, the summary or "(No title)" and the parsed times |
| Google.EventsOf | server/app/services/google_service.py:119-134 | the events of the usable items, failing at the first time that does not parse; `EventsOfUsable` and `EventsOfFailureSticks` state it |
| Google.EventsOfUsable | server/app/services/google_service.py:119-134 | the events correspond in order, one each, to the items with both a start and an end text |
| Google.EventsOfFailureSticks | server/app/services/google_service.py:131-132 | once a prefix of the items fails to parse, the whole fetch fails with that error |
| Google.Window | server/app/services/google_service.py:97-101 | the window runs from now, or the given start, to fourteen days on, or the given end |
| Google.FetchCalendarEvents | server/app/services/google_service.py:92-135 | a failed request raises; otherwise the loop over items computes exactly `EventsOf` of the items, stopping at the first time that does not parse |
| DayFilter.DayEventsAsWritten | server/app/services/scheduler.py:155-158 | `day_events` over the fetched events as Python runs it: a date-only end, or a date-only start of an event ending after midnight, raises TypeError against the aware midnight; every failure is that TypeError |
| DayFilter.AllDayItemRaises | server/app/services/scheduler.py:155-158 | one all-day Calendar item, its start and end given by dates, makes the day filter raise whatever the day |
| DayFilter.AwareItemsFilter | server/app/services/scheduler.py:155-158 | when no usable item has a date-only time, the day filter as written is the planner's `DayEvents` of the fetched events |

## Left out

- SwiftUI views (DashboardView, GoalsListView, OnboardingView, PlanView, RootView, ChronoForgeApp): presentation only. This includes `showLogButton` and the gauge colour thresholds.
- ChronoRepository.swift, GoalsViewModel.swift and DependencyContainer.swift: they only forward calls. The per-request token lookup is the token provider of `Network.APIClient`.
- The `async let` fan-out in `loadData` is modelled as sequential calls whose results are parameters.
- The `PlanCache` actor is a plain class.
- The mock client's `Task.sleep` is not modelled.
- URLSession, JSONEncoder and JSONDecoder are parameters. The cache's coder is taken to round-trip whole-second dates; the cache model captures only its dropping of fractional seconds.
- The ISO-8601 and DateFormatter parsing chains are parameters, because they are foreign code.
- The Calendar and time-zone functions are parameters: "today", day starts and yyyy-MM-dd keys.
- UNUserNotificationCenter is a map from identifier to request. The minute truncation of `DateComponents` triggers and `requestPermission` are not modelled.
- `durationHours`, `capacityFraction` and `compute_tradeoffs` are float arithmetic used only for display and what-if reports. The trade-off report is a parameter of `PlanRouter.PlanRoutes.Tradeoff`.
- `_generate_coaching` is a parameter of `Allocator.GeneratePlan`, because its thresholds are float arithmetic.
- Allocator.GeneratePlan: capacity and unmet figures are the exact hours, without Python's `round(…, 2)` and `round(…, 1)`.
- Allocator.GeneratePlan: float rounding in the budget arithmetic is not modelled, because the hours are exact reals.
- Allocator.GeneratePlan: `timedelta(hours=x)` is rounded down to whole seconds, where Python keeps microseconds.
- Allocator.GeneratePlan: the plan uses the whole-second need test described under Findings; the slot loop as written is modelled beside it.
- gemini_service.py (`process_checkin`, `get_plan_insights`) is a parameter, because it calls a remote language model.
- PlanRouter.PlanRoutes.PlanInsights: the KeyError raised when the insights answer lacks one of its three keys is not modelled.
- jwt_service.py, the auth, calendar, gmail and canvas routers, `build_auth_url`, `exchange_code`, `refresh_access_token`, `get_user_email`, main.py and config.py are left out. They are OAuth and HTTP plumbing with no sequential logic of their own.
- Fernet's cryptography is abstracted: a sealed token records its key and plain text, and only that key opens it.
- uuid generation, `datetime.now()` and `Date()` are parameters.
- Python datetimes are UTC instants. The TypeError an all-day Calendar item raises in the planner as written is modelled only by `DayFilter.DayEventsAsWritten` and listed under Findings.
- Google.EventOf: an all-day item's date-only times become instants, where `isoparse` gives a datetime without a time zone.
- PlanRouter.PlanRoutes.BuildPlan: always returns a plan. As written, an all-day Calendar event makes `generate_plan` raise, so `Generate`, `CurrentPlan` and `PlanInsights` fail for that user; the routes are modelled with the intended behaviour, where the event blocks its day.
- Network.APIClient.Get: a base URL + path that `URLComponents(string:)` cannot parse makes the force-unwrap trap; the model requires it to parse instead of modelling the crash.
- Microseconds on the server are not modelled, and nothing finer than a millisecond on the client.
- Text.Lower: only ASCII letters are lower-cased, where Python's `str.lower` handles all of Unicode.
- Google.SignalOf: a message without headers or snippet is read with "" for each. The KeyError of a header without "name" or "value" is not modelled.
- Google.FetchGmailSignals: a message listing without "id" keys, which raises KeyError, is not modelled.
- Google.FetchGmailSignals: every per-message reply is passed in as a status and body. A transport exception on one message's GET (server/app/services/google_service.py:151) escapes the whole fetch in Python, and that exception is not modelled.
- Google.FetchCalendarEvents: the item list is what the request returns; `data.get("items", [])` on a reply without items is an empty list passed in.
- Canvas.TaskOf: ids are strings. The `str()` conversion of a numeric id, and the validation error of a null name, are not modelled.
- Canvas.FetchTasks: every per-course reply is passed in as a status and body. A transport exception on one course's assignments GET (server/app/services/canvas_service.py:65) escapes the whole fetch in Python, and that exception is not modelled; only a non-200 status skips a course.
- Scheduler.FreeSlotsInDay: the ordering and disjointness lemmas are stated for a whole UTC day, the only way `generate_plan` calls `compute_free_blocks`.
- Dashboard.SortedDayBlocks: Swift's `sorted(by:)` is not documented to be stable, so today's blocks are promised sorted and a permutation, not a particular order among equal starts.

## Findings

| source | as written | input that shows it | evidently intended | confidence | as-written member | corrected member |
|---|---|---|---|---|---|---|
| server/app/services/scheduler.py:43-45 | `_slot_in_window` compares `end.hour <= hi`. A slot ending at the next midnight has end hour 0, and a slot ending at 17:30 has end hour 17. The plan is modelled with this test, as written. | The empty day's free slot 07:00-24:00 passes as a morning slot, though most of it lies after noon. | A slot is in a window when it starts at or after the window's first hour and ends by its last hour on its own day. | not executed; the hour arithmetic is plain | Scheduler.MidnightEndPassesAsWritten | Scheduler.SlotInWindowMeans |
| server/app/services/scheduler.py:195-214 | The slot loop takes a piece whenever `still_need > 0`, even when the need is below the time resolution, and records it as a goal block. | Slots 0-2 h and 3-5 h with a need of 1.5 h plus half a second, at whole-second resolution. The second slot yields the empty block 3 h-3 h. The same happens in Python with a float residue below a microsecond. | Stop taking pieces once less than one unit of time is needed, so every goal block is non-empty. | not executed; depends on a float residue | Allocator.EmptyPieceAsWritten | Allocator.AllocateGoal |
| server/app/services/scheduler.py:155-158 | An all-day Calendar item's "date" text is parsed by `isoparse` into a datetime without a time zone (server/app/services/google_service.py:118-134). The day filter `e.end > day_start` compares it with the planner's aware midnight, and Python raises TypeError. The plan routes (server/app/routers/plan.py:29-100) do not catch it. | A user whose Google Calendar holds one all-day event in the next fourteen days: `/plan/generate`, `/plan/current` and `/plan/insights` all fail on the first day's filter, before any block is placed. | The all-day event blocks its whole day, as `compute_free_blocks` intends (server/app/services/scheduler.py:76-77): no goal block is placed on that day. | not executed; Python refuses to order a naive datetime against an aware one | DayFilter.AllDayItemRaises | Scheduler.AllDayLeavesNoFreeTime |
