# AI planner: scheduling, breakdown post-processing and calendar sync in Dafny

This project models the pieces of the AI planner web app that are real logic
rather than glue code. The app breaks a task into timed subtasks, lays them
out as a schedule and pushes that schedule to Google Calendar. The modelled
pieces are:

- **Scheduler** (`server.js`, `/api/schedule`). The current instant is
  truncated to the minute. Its minute of the hour is rounded up to a multiple
  of 15, and minute 60 rolls over into the next hour. From that anchor the
  subtasks are laid out back to back, with a fixed 10-minute buffer between
  consecutive ones. Requests without a title, or whose `subtasks` is not an
  array, get a 400 reply before anything is stored.
- **AI breakdown post-processing** (`lib/anthropic.js`). The first
  content block of the reply must be text. The span from its first `{` to its
  last `}` is taken, as the greedy pattern `\{[\s\S]*\}` does. That span goes
  to a JSON parser. Each parsed subtask then gets its index as `order`, and
  its duration is clamped to [25, 60].
- **Calendar insertion** (`lib/calendar.js`, `/api/calendar/add-events`).
  Each event is mapped to a Google event body: fixed `America/New_York` time
  zone and one 10-minute popup reminder. The events are inserted one at a
  time, and a failure does not stop the loop. The handler stores the Google
  id of each successful insert and counts the successes.
- **Client helpers** (`public/app.js`): the 12-hour clock labels
  `formatHour` and `formatTime`, the 8 AM to 7 PM timeline slots, and the
  payload built by `syncToCalendar`. That payload is refused when nothing has
  been placed on the timeline.

Conventions of the model:

- Time is an integer count of local minutes. The current instant is a count
  of local milliseconds, passed in as `nowMs`.
- Storage is the list of writes a handler issues (`Server.DbWrite`).
- The JSON parser is a function parameter.
- The remote calendar insert is an outcome oracle `(call number, body) -> outcome`.
- JavaScript truthiness is explicit: an `Option<string>` is falsy when absent
  or empty, and an `Option<int>` is falsy when absent or zero.

Files: `wrappers.dfy` (Option/Result), `decimal.dfy` (integer to decimal
text and back), `tasks.dfy` (subtask and event records, numbering by
position), `scheduler.dfy`, `breakdown.dfy`, `calendar.dfy`, `server.dfy`,
`client.dfy`.

Behaviour of the code at the edges, which the model keeps:

- Because the code drops the seconds before rounding, the anchor can be
  earlier than `now`. This happens when the truncated minute is already on
  the quarter-hour grid and the seconds are non-zero.
  `Scheduler.AnchorPrecedesNowIff` states exactly when. The guaranteed bound
  is relative to the truncated minute (`Scheduler.Anchor`).
- The buffer is fixed at 10 minutes (`Scheduler.BufferMinutes`).

## Model

| member | source | states |
|---|---|---|
| `Scheduler.Anchor` | server.js:136-139 | the anchor is a multiple of 15 minutes; it lies in [m, m+14] for m = now truncated to the minute; it equals m when m is already on the grid |
| `Scheduler.AnchorIsLeastGridMinute` | server.js:137-139 | the anchor is the least quarter-hour minute at or after the truncated instant (ceiling to the grid) |
| `Scheduler.AnchorPrecedesNowIff` | server.js:134-139 | the anchor instant is earlier than `now` exactly when the truncated minute is on the grid and `now` has a non-zero seconds/milliseconds part |
| `Scheduler.Layout` | server.js:141-169 | one event per subtask, in input order, with title and description copied; event i starts at start + Σ_{j<i}(duration_j + 10); end − start equals the duration; every event carries bufferMinutes = 10 |
| `Scheduler.LayoutBuffered` | server.js:164-168 | for every adjacent pair, the next start is the previous end plus 10 minutes |
| `Scheduler.LayoutDisjoint` | server.js:141-169 | with non-negative durations, each event ends at least one buffer before any later event starts, so the schedule is in time order and does not overlap |
| `Scheduler.BuildSchedule` | server.js:132-169 | the schedule has one entry per subtask; the first starts exactly at the anchor, on the 15-minute grid; entry i starts at anchor + Σ_{j<i}(duration_j + 10) |
| `Scheduler.TwoSubtaskExample` | server.js:132-169 | 30- and 45-minute subtasks requested at 09:07 are scheduled 09:15–09:45 and 09:55–10:40 |
| `Tasks.Number` | server.js:119-127 | one entry per submitted subtask, in input order; entry i holds subtask i unchanged and order i |
| `Tasks.StripNumber` | server.js:119-127 | numbering loses nothing: dropping the order gives back the submitted subtasks |
| `Tasks.NumberStrip` | server.js:119-127 | a stored list has order = index everywhere exactly when it is the numbering of its own subtasks |
| `Server.HandleSchedule` | server.js:95-169 | invalid requests (title absent or empty, subtasks absent or not an array) get 400 "Invalid request data" and cause no write and no schedule; valid ones write the task, subtask i with order i, then event i, and return the anchored, buffered schedule |
| `Calendar.CountAdded` | server.js:217 | the success count is at most the number of results |
| `Calendar.CountAddedIsAddedIndices` | server.js:217 | the success count equals the number of indices whose result is a success |
| `Server.RecordGoogleIds` | server.js:207-215 | updates happen exactly at the indices whose insert succeeded, in increasing order, each storing that result's Google id on that event; their number is the success count |
| `Server.HandleAddEvents` | server.js:192-224 | invalid requests (taskId absent or 0, events absent or not an array) get 400 before any insert; otherwise every event is attempted, successCount is the number of successful results, the message embeds it, and updates touch exactly the succeeded indices, in increasing index order |
| `Breakdown.ExtractJsonSpan` | lib/anthropic.js:56-57 | a span exists exactly when some `{` precedes some `}`; the span runs from the first `{` to the last `}` of the text, both inclusive |
| `Breakdown.BracesOrdered` | lib/anthropic.js:56-57 | some '{' precedes some '}' exactly when the first '{' lies before the last '}' |
| `Breakdown.ClampDuration` | lib/anthropic.js:62 | the result lies in [25, 60]; it is the identity inside that range, 25 below it and 60 above it |
| `Breakdown.ClampIdempotent` | lib/anthropic.js:62 | clamping twice equals clamping once |
| `Breakdown.NumberAndClamp` | lib/anthropic.js:59-63 | same length as the parsed list; element i has order i, its title and description copied, and its duration clamped into [25, 60] |
| `Breakdown.NumberAndClampInRange` | lib/anthropic.js:59-63 | when every parsed duration is already in range, removing the numbering gives back the parsed list unchanged |
| `Breakdown.GenerateTaskBreakdown` | lib/anthropic.js:53-66 | an empty reply fails; a non-text first block or a text without a braced span fails with "Failed to parse AI response"; a parser error is passed on with its message; on success the result is the numbered, clamped parse of the extracted span |
| `Calendar.ToGoogleEvent` | lib/calendar.js:58-75 | summary is the title; description is the given one or ''; start and end dateTime are copied verbatim; both time zones are America/New_York; default reminders are off and the only override is a 10-minute popup |
| `Calendar.GoogleEventSameIff` | lib/calendar.js:58-75 | two events give the same body exactly when they agree on title, start, end and description-or-'' |
| `Calendar.AddFrom` | lib/calendar.js:89-97 | from call number k on, every event's body is sent, in order, and result i is the outcome of call k + i |
| `Calendar.AddMultipleCalendarEvents` | lib/calendar.js:86-100 | results and attempts have the length and order of the input; result i is a success with id x exactly when insert i returned x, and a failure with message m exactly when insert i threw m |
| `Calendar.OutcomesIndependent` | lib/calendar.js:89-97 | changing what insert i does changes no other result, so a failure at i does not prevent the later inserts |
| `Calendar.PartialFailureExample` | lib/calendar.js:89-97 | three events with the second insert failing give [success, failure, success] and a success count of 2 |
| `Client.DisplayHour` | public/app.js:57 | for hours 0..23 the shown hour is in 1..12 and congruent to the hour modulo 12: 0 → 12, 1..12 unchanged, 13..23 → hour − 12 |
| `Client.FormatHour` | public/app.js:55-59 | the label is the decimal display hour followed by ":00 " and the period; it ends in "PM" exactly when hour ≥ 12 and in "AM" otherwise |
| `Client.FormatHourReadBack` | public/app.js:55-59 | for hours 0..23 the label can be read back to the hour it was made from |
| `Client.FormatHourInjective` | public/app.js:55-59 | for hours 0..23, two labels are equal exactly when the hours are |
| `Client.PadStart` | public/app.js:356 | the result has length max(input length, width), ends with the input, and has only the pad character before it |
| `Client.FormatTimeShape` | public/app.js:353-357 | the label is the display hour, ':', the minute text as `PadStart` leaves it (left-padded with '0' to at least two characters), a space, and the period; it ends in "PM" exactly when hour ≥ 12 and in "AM" otherwise |
| `Client.FormatTimeOnTheHour` | public/app.js:353-357 | formatTime(h, 0) equals formatHour(h) for every h |
| `Client.TimelineHours` | public/app.js:31-35 | 12 slots; slot i is hour 8 + i; strictly ascending; the slot hours are exactly 8..19 |
| `Client.TimelineLabels` | public/app.js:31-38 | one label per slot, each the formatHour label of its hour |
| `Client.TimelineLabelsEnds` | public/app.js:31-38 | the first label is "8:00 AM" and the last "7:00 PM" |
| `Client.TimelineLabelsDistinct` | public/app.js:31-38 | no two slots carry the same label |
| `Client.OrText` | public/app.js:299 | JavaScript's logical or on optional text: the first operand when it is present and non-empty, the second otherwise |
| `Client.DurationOrDefault` | public/app.js:296 | the duration when it is present and non-zero, 30 otherwise; never 0 |
| `Client.ToSyncEvent` | public/app.js:294-305 | bufferMinutes is 10; the duration falls back to 30; the title falls back to the description; the description falls back to ''; startTime is the hour followed by ":00" |
| `Client.SyncEventReadBack` | public/app.js:294-305 | startTime ends in ":00" and its prefix reads back to the placed hour; the title is non-empty exactly when the task's title or description is; the description is '' exactly when absent or empty, and copied otherwise |
| `Client.SyncToCalendar` | public/app.js:284-305 | sync is refused with an alert exactly when no events are placed; otherwise the payload has one event per placed event, in order |
| `Decimal.NatToStringRoundTrip` | public/app.js:58 | the decimal text of a natural number reads back to that number |
| `Decimal.ReadIntToString` | public/app.js:356 | the decimal text of any integer, with a leading '-' when negative, reads back to that integer |

## Left out

- HTTP plumbing is not modelled, because it is wiring: Express routing, CORS,
  static files, the health and task-list endpoints, and server start-up and
  shutdown (server.js:13-36, 234-270).
- The `/api/ai-breakdown` endpoint is not modelled (server.js:68-92). It only
  checks for a title and then calls the breakdown.
- Image upload and OCR are not modelled (server.js:19-65), because they call
  Multer and Tesseract.
- Storage is not modelled as a database. Each Prisma call is a write in
  `Server.DbWrite` and always succeeds, so the 500 replies for failed storage
  calls are absent. The reply fields that echo storage are left out too: the
  `task: {id, title, description}` object of the schedule reply and each
  schedule entry's `id: event.id` (server.js:158-180).
- `Server.HandleSchedule`: the subtask writes are listed in index order.
  `Promise.all` may run them in any order; only the order of its results
  matters to the schedule, and that order is kept.
- `Server.HandleSchedule`: the schedule holds local minute counts. The ISO-8601
  strings, time zones and daylight saving are not modelled, because they come
  from `Date` and the runtime.
- `Server.ValidScheduleRequest`: the title is optional text. A truthy title
  that is not a string passes the check in the code and then fails in
  storage; that path is not modelled.
- `Server.ValidAddEventsRequest`: taskId is an optional integer, falsy when
  absent or zero. The code's `!taskId` also accepts any truthy non-number,
  such as the string "0"; that is not modelled.
- `Calendar.CountAdded`: its own contract only bounds the count by the number
  of results. The exact count, the number of succeeded indices, is stated by
  `Calendar.CountAddedIsAddedIndices`, so that callers with loops stay cheap
  to verify.
- `Breakdown.GenerateTaskBreakdown`: the model call and the prompt are not
  modelled (lib/anthropic.js:7-52), because they are a network call.
  `JSON.parse` and the reading of `parsed.subtasks` are the parameter
  `parseJson`.
- `Breakdown.ErrorMessage`: for a reply with no content blocks, the text is
  what a JavaScript engine typically reports for reading `type` of
  undefined. The exact runtime text is not fixed by the code.
- `Breakdown.ClampDuration`: durations are integers. Fractional, missing or
  non-numeric durations are not modelled, because JavaScript floating point
  and NaN are out of scope.
- `Calendar.AddMultipleCalendarEvents`: OAuth token fetching, caching and
  client construction are folded into the insert oracle, because they are
  environment and network I/O (lib/calendar.js:4-52). Any failure there shows
  up as a thrown outcome of that call.
- `Calendar.EventData`: the event `id` is an integer that is always present.
  A missing id would make the storage update throw; that is not modelled.
- The browser UI is not modelled: the DOM, drag-and-drop that produces the
  placed events, loading and success toggles, the voice stub and `setTimeout`
  (public/app.js:10-28, 36-51, 168-281, 336-350).
- The client posts to paths the server does not define (public/app.js:93,
  145, 307). This is wiring, so the client payload and the server request
  are modelled separately.
