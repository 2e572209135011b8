# Synapse command console: a verified model of its data flow

This project models the logic of the Synapse operations console, written in Dafny. The front end's widgets are:

- the operations dashboard: all-or-nothing refresh, fallback data, mean success rate, live summary, metric cards, status pill and ring chart;
- the to-do list;
- the "Ask Synapse" chat panel;
- the memory explorer: case-insensitive filter, source icons and counts;
- the month calendar;
- the fear & greed gauge.

Two back-end services are modelled:

- the synthetic data provider: an hour-seeded generator and the analytics, workflows, projects and health payloads;
- the Ollama client: URL normalisation, the model list with its fallback, chat content extraction and size humanising.

The modules follow the source files:

| Module | Models |
|---|---|
| `Dashboard` | `Dashboard.jsx` |
| `TodoWidget` | `TodoWidget.jsx` |
| `AIChat` | `AIChat.jsx` |
| `KnowledgeExplorer` | `KnowledgeExplorer.jsx` |
| `CalendarWidget` | `CalendarWidget.jsx` |
| `FearGreedIndex` | `FearGreedIndex.jsx` |
| `DataService` | `data.py` |
| `OllamaClient` | `ollama.py` |

Shared helpers:

- `Wrappers`: optional values, and settled requests as `Outcome`.
- `Text`: ASCII lower-casing, substring search, and trimming with JavaScript's or Python's white-space set.
- `Seqs`: subsequences.
- `Gregorian`: an explicit proleptic Gregorian calendar. It gives day counts from 1970-01-01 and their inverse, month lengths and weekdays. It replaces ECMAScript `Date` and Python `datetime`.

React state hooks become classes whose fields the handlers reassign. Each awaited request becomes a parameter saying how it settled. Pure computations become functions, and loops become methods proved against those functions.

Numbers are exact reals or unbounded integers. The random generator is a parameter `stream(seed, k)` in [0, 1): the k-th draw after seeding with `seed`. The clock is a parameter too, in seconds since 1970-01-01T00:00Z.

Three behaviours of the code are worth stating outright:

- **Refresh.** The code awaits all four requests with `Promise.all`, so one failure keeps all four old values (`FetchDashboard`).
- **Mean success rate.** The mean over an empty workflow list is 0 (`AverageWorkflowSuccess`).
- **Ring chart.** A zero total is not flagged: the divisor is floored to 1, so every segment collapses to [0, 0] (`SegmentsCollapse`).

## Model

| member | source | states |
|---|---|---|
| Dashboard.DashboardState.constructor | frontend/src/components/Dashboard.jsx:60-66 | no source values yet, loading, not refreshing, no error |
| Dashboard.DashboardState.FetchDashboard | frontend/src/components/Dashboard.jsx:68-89 | all four sources are stored together only when every request resolves; any rejection keeps all four old values and sets the fixed error text; loading and refreshing end false |
| Dashboard.RevenueTrend | frontend/src/components/Dashboard.jsx:95 | the backend series whenever the response and the field are present (even empty), else the fixed fallback series |
| Dashboard.WorkflowStats | frontend/src/components/Dashboard.jsx:96 | the backend workflow list whenever present (even empty), else the three fallback workflows |
| Dashboard.AverageWorkflowSuccess | frontend/src/components/Dashboard.jsx:98-102 | 0 for no workflows; otherwise mean × count equals the sum of the rates, a missing rate counting as 0 |
| Dashboard.SumRatesBounds | frontend/src/components/Dashboard.jsx:100 | rates within [lo, hi] sum to within [n·lo, n·hi] |
| Dashboard.AverageWithinRates | frontend/src/components/Dashboard.jsx:98-102 | the mean of a non-empty list lies between any bounds of its rates |
| Dashboard.FallbackView | frontend/src/components/Dashboard.jsx:35-48 | with no responses the view uses the fixed series and workflows, whose mean rate is 1462/15, and the connecting placeholder |
| Dashboard.LiveSummary | frontend/src/components/Dashboard.jsx:104-110 | the placeholder exactly when analytics or workflows is missing; otherwise the active users and `total_executions` when non-zero, else the summed executions |
| Dashboard.SummaryPlaceholder | frontend/src/components/Dashboard.jsx:105-107 | the connecting sentence is shown exactly for the placeholder summary |
| Dashboard.MetricCards | frontend/src/components/Dashboard.jsx:112-137 | four cards in order; automations use `total_executions ?? sum`; the three analytics cards have no value while analytics is missing; community growth defaults to 0; the automations and screen-time cards carry the fixed texts "+4.2% vs previous hour" and "Daily engagement" |
| Dashboard.CardAndSummaryCountsDiffer | frontend/src/components/Dashboard.jsx:108-115 | with `total_executions` present but 0 the card shows 0 while the headline shows the summed executions |
| Dashboard.Placeholder | frontend/src/components/Dashboard.jsx:268-270 | the "—" marker is shown exactly for a card with no value |
| Dashboard.StatusPill | frontend/src/components/Dashboard.jsx:50-57 | healthy, degraded and offline get their classes, anything else the grey default |
| Dashboard.StatusPillsDistinct | frontend/src/components/Dashboard.jsx:50-57 | the pill classes of the three known statuses and of no status are pairwise different |
| Dashboard.Denominator | frontend/src/components/Dashboard.jsx:148 | never 0; equals the total executions when that is non-zero |
| Dashboard.Segments | frontend/src/components/Dashboard.jsx:142-156 | one segment per workflow in order, the i-th running between the shares of the first i and first i+1 workflows |
| Dashboard.SegmentsLabelled | frontend/src/components/Dashboard.jsx:143-147 | each segment carries its workflow's name and executions, with colours cycling through the four-colour palette |
| Dashboard.SegmentsContiguous | frontend/src/components/Dashboard.jsx:149-155 | the first segment starts at 0 and each later one starts where the previous ends |
| Dashboard.PrefixGrows | frontend/src/components/Dashboard.jsx:148-153 | with non-negative counts the running sums are non-negative and non-decreasing |
| Dashboard.SegmentsWithinRing | frontend/src/components/Dashboard.jsx:149-155 | with non-negative counts every segment runs forward inside 0..100 |
| Dashboard.SegmentWithinRing | frontend/src/components/Dashboard.jsx:149-155 | the same for one segment, in terms of its two boundaries |
| Dashboard.SegmentsCloseRing | frontend/src/components/Dashboard.jsx:148-155 | a non-zero total makes the last segment end at exactly 100 |
| Dashboard.SegmentsCollapse | frontend/src/components/Dashboard.jsx:148 | a zero total with non-negative counts collapses every segment to [0, 0] |
| Dashboard.SegmentCollapses | frontend/src/components/Dashboard.jsx:148 | the same for one segment's two boundaries |
| Dashboard.ExecTotalIsSum | frontend/src/components/Dashboard.jsx:145-148 | the ring's total over all workflows equals the summed executions used by the headline and the automations card |
| Dashboard.PrefixPlusRest | frontend/src/components/Dashboard.jsx:148 | the executions of the first k workflows plus those of the rest make the summed executions |
| Dashboard.ConicStops | frontend/src/components/Dashboard.jsx:142-156 | the accumulator loop builds exactly `Segments` |
| Dashboard.TwoWorkflowExample | frontend/src/components/Dashboard.jsx:98-102 | rates 100 and 90 with 50 runs each give mean 95 and split the ring at 50 and 100 |
| TodoWidget.Toggled | frontend/src/components/TodoWidget.jsx:13-17 | same length, ids, texts and times; `completed` flipped exactly where the id matches |
| TodoWidget.ToggleTwice | frontend/src/components/TodoWidget.jsx:13-17 | toggling one id twice restores the list |
| TodoWidget.ToggleAbsent | frontend/src/components/TodoWidget.jsx:13-17 | toggling an id no todo has changes nothing |
| TodoWidget.Without | frontend/src/components/TodoWidget.jsx:19-21 | an order-preserving subsequence holding exactly the todos with another id; unchanged when no todo has the id |
| TodoWidget.TodoList.constructor | frontend/src/components/TodoWidget.jsx:5-11 | the four initial todos and an empty draft |
| TodoWidget.TodoList.SetNewTodo | frontend/src/components/TodoWidget.jsx:11 | the draft becomes the typed text |
| TodoWidget.TodoList.ToggleTodo | frontend/src/components/TodoWidget.jsx:13-17 | the list becomes `Toggled` of the old list |
| TodoWidget.TodoList.DeleteTodo | frontend/src/components/TodoWidget.jsx:19-21 | the list becomes `Without` of the old list |
| TodoWidget.TodoList.AddTodo | frontend/src/components/TodoWidget.jsx:23-32 | a blank draft changes nothing; otherwise exactly one uncompleted todo with the untrimmed draft is appended and the draft is cleared; earlier todos are untouched |
| AIChat.ReplyMessage | frontend/src/components/AIChat.jsx:26-38 | an answer gives an assistant message with the summary and the matches (none when absent); a failure gives the fixed error message with no sources |
| AIChat.ChatSession.constructor | frontend/src/components/AIChat.jsx:6-8 | empty query, no messages, not loading |
| AIChat.ChatSession.SetQuery | frontend/src/components/AIChat.jsx:6 | the query becomes the typed text |
| AIChat.ChatSession.SendDisabled | frontend/src/components/AIChat.jsx:144 | disabled exactly when loading or the query trims to nothing; so enabled exactly when not loading and the query has a non-white-space character |
| AIChat.ChatSession.InputDisabled | frontend/src/components/AIChat.jsx:139 | the input is disabled exactly while a reply is pending, and then sending is disabled too |
| AIChat.ChatSession.Submit | frontend/src/components/AIChat.jsx:15-25 | a blank query sends nothing and changes nothing; otherwise the user message is appended, the query cleared, loading set, and the original query sent with top_k 5 |
| AIChat.ChatSession.Settle | frontend/src/components/AIChat.jsx:24-41 | one assistant message is appended and loading ends |
| AIChat.ChatSession.HandleSubmit | frontend/src/components/AIChat.jsx:15-42 | a whole submission appends exactly the user message and the reply, keeps earlier messages and ends with an empty query, not loading |
| KnowledgeExplorer.FilteredDocs | frontend/src/components/KnowledgeExplorer.jsx:29-33 | an order-preserving subsequence holding exactly the documents whose preview, title or source contains the term, ignoring case |
| KnowledgeExplorer.FilterIgnoresCase | frontend/src/components/KnowledgeExplorer.jsx:29-33 | terms that lower-case alike filter alike |
| KnowledgeExplorer.EmptyTermKeepsSearchable | frontend/src/components/KnowledgeExplorer.jsx:29-33 | the empty term keeps exactly the documents with a preview, title or source |
| KnowledgeExplorer.GetSourceIcon | frontend/src/components/KnowledgeExplorer.jsx:35-46 | docs first, then mail, then sheets, then generic, each by `type` or `source`; no metadata gives the generic icon |
| KnowledgeExplorer.CountSourceContaining | frontend/src/components/KnowledgeExplorer.jsx:86-100 | the count is at most the total, 0 exactly when no source contains the word, and the total exactly when every source does |
| KnowledgeExplorer.CountConcat | frontend/src/components/KnowledgeExplorer.jsx:86-100 | the count over two lists put together is the sum of their counts, so with the one-document cases the count is the number of matching documents |
| KnowledgeExplorer.DisplayTitle | frontend/src/components/KnowledgeExplorer.jsx:143 | the non-empty title, else the non-empty id, else "Untitled"; never empty |
| KnowledgeExplorer.Explorer.constructor | frontend/src/components/KnowledgeExplorer.jsx:6-9 | no documents, loading, no error, empty term |
| KnowledgeExplorer.Explorer.SetSearchTerm | frontend/src/components/KnowledgeExplorer.jsx:9 | the term becomes the typed text |
| KnowledgeExplorer.Explorer.LoadDocuments | frontend/src/components/KnowledgeExplorer.jsx:15-27 | an array replaces the documents and clears the error; any other payload empties them; a failure keeps them and sets the error; loading ends |
| KnowledgeExplorer.Explorer.Shown | frontend/src/components/KnowledgeExplorer.jsx:29-33 | the shown documents are exactly `FilteredDocs` of the loaded documents and the search term, a subsequence of the loaded ones |
| CalendarWidget.MonthStart | frontend/src/components/CalendarWidget.jsx:29 | a valid first-of-month date with the same absolute month count 12·year + month |
| CalendarWidget.MonthStartAsWritten | frontend/src/components/CalendarWidget.jsx:29-33 | `new Date(y, m)` as called: a valid first of the month whose absolute month count 12·year + month is that of the MakeFullYear-adjusted year plus m |
| CalendarWidget.ConstructorYear | frontend/src/components/CalendarWidget.jsx:29 | a year in 0..99 is read as 1900 + year, any other year as itself |
| CalendarWidget.PreviousMonthStart | frontend/src/components/CalendarWidget.jsx:28-30 | January goes to December of the year before, other months to the month before, on the 1st |
| CalendarWidget.NextMonthStart | frontend/src/components/CalendarWidget.jsx:32-34 | December goes to January of the next year, other months to the month after, on the 1st |
| CalendarWidget.NavigationRoundTrip | frontend/src/components/CalendarWidget.jsx:28-34 | back after forward, and forward after back, return to the same month |
| CalendarWidget.AsWrittenRoundTripFails | frontend/src/components/CalendarWidget.jsx:9-34 | as written, forward from December of year 99 then back lands in December 1999; December 99 is drawn with December 1999's first weekday; February of year 0 gets 28 days |
| CalendarWidget.Grid | frontend/src/components/CalendarWidget.jsx:69-87 | the given number of blanks, then buttons numbered 1..days |
| CalendarWidget.GridColumnIsWeekday | frontend/src/components/CalendarWidget.jsx:15-19 | in the seven-column grid, day d lands in the column of its real weekday |
| CalendarWidget.Calendar.constructor | frontend/src/components/CalendarWidget.jsx:5 | the widget opens on today's date |
| CalendarWidget.Calendar.DaysInMonth | frontend/src/components/CalendarWidget.jsx:9-13 | 28..31 days; 29 exactly for February of a leap year |
| CalendarWidget.Calendar.FirstDayOfMonth | frontend/src/components/CalendarWidget.jsx:15-19 | a weekday 0..6 congruent to the day count of the 1st plus Thursday's 4 |
| CalendarWidget.Calendar.MonthLabel | frontend/src/components/CalendarWidget.jsx:6-7 | the name of the displayed month |
| CalendarWidget.Calendar.Cells | frontend/src/components/CalendarWidget.jsx:69-87 | blanks up to the first weekday, then day d's button at position first + d − 1 |
| CalendarWidget.Calendar.TodayHighlightedOnce | frontend/src/components/CalendarWidget.jsx:21-26 | at most one day is highlighted, and today's cell is when today's month is shown |
| CalendarWidget.Calendar.IsToday | frontend/src/components/CalendarWidget.jsx:22-26 | a day is highlighted exactly when that day of the displayed month and year is today's date |
| CalendarWidget.Calendar.PreviousMonth | frontend/src/components/CalendarWidget.jsx:28-30 | the displayed date becomes `PreviousMonthStart` of the old one |
| CalendarWidget.Calendar.NextMonth | frontend/src/components/CalendarWidget.jsx:32-34 | the displayed date becomes `NextMonthStart` of the old one |
| Gregorian.DaysInMonth | frontend/src/components/CalendarWidget.jsx:9-13 | 28..31; 29 exactly for a leap February, 30 exactly for April, June, September and November |
| Gregorian.CivilFromDays | backend/app/services/data.py:22-23 | a valid (year, month, day) whose day count is the given one: the inverse of `DaysFromCivil` |
| Gregorian.CivilRoundTrip | backend/app/services/data.py:22-23 | converting a valid date to its day count and back gives the same date |
| Gregorian.DaysFromCivilInjective | backend/app/services/data.py:22-23 | two valid dates with the same day count are the same date |
| Gregorian.MonthLengthsAgree | frontend/src/components/CalendarWidget.jsx:9-13 | the day counts of consecutive firsts of the month differ by the month-length table's value |
| Gregorian.FebruaryLength | frontend/src/components/CalendarWidget.jsx:9-13 | February's day-count difference follows the leap rule |
| Gregorian.FirstWeekdayAdvances | frontend/src/components/CalendarWidget.jsx:15-19 | next month's first weekday is this month's advanced by this month's length, modulo 7 |
| Gregorian.EpochAnchor | backend/app/services/data.py:22-23 | 1970-01-01 is day 0, a Thursday |
| FearGreedIndex.Label | frontend/src/components/FearGreedIndex.jsx:5 | the label of the band the value lies in |
| FearGreedIndex.Color | frontend/src/components/FearGreedIndex.jsx:7-13 | the colour of the band the value lies in |
| FearGreedIndex.BandsPartition | frontend/src/components/FearGreedIndex.jsx:5-13 | every value lies in exactly one band |
| FearGreedIndex.LabelDeterminesColor | frontend/src/components/FearGreedIndex.jsx:5-13 | two values share a label exactly when they share a colour |
| FearGreedIndex.DashLength | frontend/src/components/FearGreedIndex.jsx:40 | values in 0..100 draw an arc within the full 502 length, 100 the full arc |
| FearGreedIndex.DashLengthMonotone | frontend/src/components/FearGreedIndex.jsx:40 | a larger value never draws a shorter arc |
| FearGreedIndex.ShippedGauge | frontend/src/components/FearGreedIndex.jsx:4-13 | the shipped value 70 reads "Greed" in blue |
| DataService.HourSeedInjective | backend/app/services/data.py:21-24 | two hours get the same seed exactly when they are the same hour |
| DataService.ShiftedHour | backend/app/services/data.py:22 | the hour whose 3600 seconds contain the clock reading moved back by the offset |
| DataService.HourSeedDigits | backend/app/services/data.py:21-24 | read back, the seed's digits give a valid date whose day count is the hour's day, and the hour of that day |
| DataService.HourSeedOfDate | backend/app/services/data.py:22-23 | any hour of a calendar date is seeded with that date's `%Y%m%d%H` |
| DataService.SeedDigits | backend/app/services/data.py:23 | the seed's digits read back the year, month, day and hour |
| DataService.Uniform | backend/app/services/data.py:32 | for a ≤ b the value lies in [a, b], and below b when a < b |
| DataService.TrendValue | backend/app/services/data.py:31-33 | with a non-negative base and variance, the value lies within ±variance of its base |
| DataService.Clamp | backend/app/services/data.py:52 | the result lies in 0..100; in-range values are kept, values below 0 become 0 and values above 100 become 100 |
| DataService.MonthlyRevenueAt | backend/app/services/data.py:54-64 | six points named Jan..Jun in order |
| DataService.AnalyticsAt | backend/app/services/data.py:43-83 | six months Jan..Jun, the fixed bills and growth text, and a crypto index in 0..100 |
| DataService.AnalyticsInBands | backend/app/services/data.py:45-64 | executions, users, new users, revenue, crypto index and every month lie in their variance bands |
| DataService.RecentActivity | backend/app/services/data.py:105-116 | one "2 mins ago" success per workflow in order, then the fixed "Data Processing" entry |
| DataService.WorkflowsAt | backend/app/services/data.py:85-122 | the three workflows in order, Email Automation at 100%, the total equal to the summed executions, and four activity entries |
| DataService.SuccessRatesAtMostHundred | backend/app/services/data.py:85-101 | every success rate lies in 0..100 |
| DataService.ProjectsAt | backend/app/services/data.py:124-134 | the fixed projects and comparison text, with the ongoing count within 4% of 68.5 |
| DataService.ProjectsDifferOnlyInCount | backend/app/services/data.py:124-134 | two projects payloads differ at most in the ongoing count |
| DataService.Health | backend/app/services/data.py:35-41 | always healthy and connected, stamped with the given time |
| DataService.DataProvider.constructor | backend/app/services/data.py:15-24 | the generator is seeded from the shifted hour of the clock reading, with nothing drawn |
| DataService.DataProvider.Refresh | backend/app/services/data.py:26-29 | reseeds from the clock reading and restarts the draws |
| DataService.DataProvider.Trend | backend/app/services/data.py:31-33 | returns the trend value of the next draw and advances by one |
| DataService.DataProvider.Analytics | backend/app/services/data.py:43-83 | reseeds, then returns `AnalyticsAt` of the new seed after fourteen draws |
| DataService.DataProvider.DrawAnalytics | backend/app/services/data.py:45-83 | from a fresh seed, the fourteen draws build exactly `AnalyticsAt` |
| DataService.DataProvider.MonthlyRevenue | backend/app/services/data.py:54-64 | the comprehension builds `MonthlyRevenueAt` from the next six draws |
| DataService.DataProvider.BuildRecentActivity | backend/app/services/data.py:105-116 | the append loop builds exactly `RecentActivity` |
| DataService.DataProvider.Workflows | backend/app/services/data.py:85-122 | returns `WorkflowsAt` from the next five draws, without reseeding |
| DataService.DataProvider.Projects | backend/app/services/data.py:124-134 | returns `ProjectsAt` from the next draw, without reseeding |
| DataService.SameHourSameAnalytics | backend/app/services/data.py:43-44 | clock readings in the same shifted hour give the same analytics; readings in different hours give different seeds |
| OllamaClient.NormalizedBaseUrl | backend/app/services/ollama.py:20 | the longest prefix not ending in '/', everything dropped being '/' |
| OllamaClient.NormalizeIdempotent | backend/app/services/ollama.py:20 | normalising twice is normalising once |
| OllamaClient.JoinUrl | backend/app/services/ollama.py:24 | the base followed by the path |
| OllamaClient.SingleSlashAtSeam | backend/app/services/ollama.py:20-24 | a normalised base and a '/'-led path meet at exactly one slash |
| OllamaClient.OllamaService.constructor | backend/app/services/ollama.py:19-21 | stores the normalised base URL and the timeout |
| OllamaClient.OllamaService.RequestUrl | backend/app/services/ollama.py:24 | the request URL is the stored base followed by the path |
| OllamaClient.ScaleDown | backend/app/services/ollama.py:87-91 | the loop ends at a unit within the TB cap, below 1024 unless capped, with amount × 1024^steps equal to the input and at least 1 once it divided |
| OllamaClient.HumanizedSize | backend/app/services/ollama.py:85-94 | "0B" for sizes up to 0; truncated bytes below 1024; from 1024 on, an amount in [1, 1024) (or more at TB) whose scaling back gives the size |
| OllamaClient.HumanizeSize | backend/app/services/ollama.py:85-94 | the in-place division loop computes exactly `HumanizedSize` |
| OllamaClient.DecimalDigits | backend/app/services/ollama.py:93 | non-empty decimal digits with no leading zero |
| OllamaClient.DecimalRoundTrip | backend/app/services/ollama.py:93 | reading the printed digits back gives the number |
| OllamaClient.BytesText | backend/app/services/ollama.py:93 | the digits of the number followed by "B", which read back to the number |
| OllamaClient.SmallSizesPrintZero | backend/app/services/ollama.py:85-93 | sizes below one byte print as "0B" |
| OllamaClient.DescribeModel | backend/app/services/ollama.py:46-50 | the name defaults to "unknown", the size to 0 before humanising; the modification time is passed through |
| OllamaClient.ListModels | backend/app/services/ollama.py:38-58 | HTTP errors, bad JSON and a non-list `models` give the two fallback models; a missing field gives none; a list is described entry by entry; a non-object body raises |
| OllamaClient.EmptyListMeansNoModels | backend/app/services/ollama.py:38-58 | an empty result means the server reported no models |
| OllamaClient.ChatRequest | backend/app/services/ollama.py:61-67 | the model, one user turn with the message, and the stream flag |
| OllamaClient.RawContent | backend/app/services/ollama.py:71 | a non-empty message content wins, else the `response` field |
| OllamaClient.ExtractContent | backend/app/services/ollama.py:70-74 | a non-object message raises; non-empty content, else `response`, is returned stripped; neither gives the no-content error |
| OllamaClient.ReplyIsTrimmedContent | backend/app/services/ollama.py:74 | a reply is the chosen content with only white space cut from its two ends, and none left at either end |
| OllamaClient.BlankContentRepliesEmpty | backend/app/services/ollama.py:71-74 | content that is only white space passes the check and replies with the empty string |
| OllamaClient.Chat | backend/app/services/ollama.py:60-77 | an HTTP error gives the "unreachable" error; a non-object body raises; otherwise the extracted content; no other service error message |
| Text.Lower | frontend/src/components/KnowledgeExplorer.jsx:30-32 | same length, each character lower-cased |
| Text.LowerIdempotent | frontend/src/components/KnowledgeExplorer.jsx:30-32 | lower-casing twice is lower-casing once |
| Text.TrimEnd | backend/app/services/ollama.py:20 | a prefix whose last character is not white space, everything dropped being white space |
| Text.Trim | backend/app/services/ollama.py:74 | the input with only white space cut from its two ends, no white space left at either end, empty exactly when the input is all white space |
| Text.TrimUnique | backend/app/services/ollama.py:74 | any piece of the input obtained by cutting only white space from its ends and keeping none at either end is `Trim`'s result |
| Text.TrimFacts | backend/app/services/ollama.py:74 | the facts of `Trim`'s contract for the two trimming passes: only white space is cut, none is left at the ends, and the result is empty exactly for all-white-space input |
| Seqs.SubsequenceFacts | frontend/src/components/TodoWidget.jsx:20 | a subsequence is no longer than its source and takes its elements from it |

## Left out

- Display formatting: `Intl.NumberFormat`, `toFixed`, f-string formatting of sizes with one decimal, locale time strings, and the "Monitoring …" sentence. The model stops at the values before formatting.
- Rounding and integer conversion in `data.py`: `round(…, digits)` and `int(…)` on drawn values. Trend values are exact reals, so the bands proved are those before rounding.
- The random generator itself: Python's Mersenne Twister is a parameter stream of draws in [0, 1). `random.uniform`'s end point may be reached through floating-point rounding; that is not modelled.
- Floating point: NaN, infinities and rounding error. All arithmetic is exact.
- `datetime`'s year range 1..9999. The seed is modelled for every year.
- HTTP, `httpx`, timeouts and `is_online`. Each request is replaced by how it settled. `_request`'s status check is folded into the HTTP-error case.
- React rendering, effects, scrolling, suggestion buttons, timers, and the order in which state updates are batched. Concurrency between overlapping submissions or refreshes is not modelled: each handler runs to completion.
- Dashboard bills, timeline, projects card, mentors line, health timestamp and charts: plain pass-through rendering.
- Dashboard.StatusPill: JavaScript object lookup also matches inherited keys such as `"constructor"`. The model maps only the three own keys.
- AIChat: a missing `summary` in the answer is not modelled; the summary is a string.
- OllamaClient.HumanizedSize: non-numeric sizes are left out. `str(value)` for values `float()` rejects is not modelled, and neither is a size of `None`. A model entry that is not an object, raising `AttributeError`, is also left out.
- OllamaClient.ExtractContent: a `content` or `response` that is not a string is not modelled.
- OllamaClient.DescribeModel: an explicit `null` name stays `None` in Python. The model supplies "unknown" whenever the name is absent.
- Calendar `isToday` reads the real clock. Today is a parameter, and the fixed "Today: December 20, 2025" banner is not modelled.
- The fear & greed legend (0-20, …, 80-100) is static text. It does not match the 25/45/55/75 thresholds and is not modelled.
- Text: Unicode case mapping and non-ASCII white space. Only the ASCII rules of `toLowerCase`, `trim` and `strip` are modelled.

## Findings

| source | as written | input that shows it | evidently intended | confidence | as-written member | corrected member |
|---|---|---|---|---|---|---|
| frontend/src/components/CalendarWidget.jsx:9-34 | `new Date(year, month ± 1)` in the navigation, and `new Date(year, month, …)` in `daysInMonth` and `firstDayOfMonth`, read years 0..99 as 1900..1999 | "next" from December of year 99 gives January 2000, and "previous" then gives December 1999, not year 99; "previous" from January 100 shows December 99 with December 1999's first weekday (Wednesday, not Tuesday); February of year 0 gets 28 days | navigation moves exactly one month and back again for every year, and the grid uses the displayed year's own month length and first weekday | not executed; reachable only after navigating about 1900 years back | CalendarWidget.AsWrittenRoundTripFails | CalendarWidget.NavigationRoundTrip |
