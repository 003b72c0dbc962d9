# school-moodle-langchain: the MCP client, the tool adapters, the date helper and the monitors

This project models four parts of the school-moodle-langchain agent in Dafny and proves
their properties.

- **The MCP client.** `MoodleMcpClient` starts the Moodle MCP server lazily, forgets the
  session when the process exits and shuts down on request. It also checks every tool reply.
- **The tool adapters.** Each LangChain tool's `_call` does four things:
  - it reads the user's token, from the run config or from its own arguments;
  - it validates or disambiguates its arguments;
  - it builds the payload for the server;
  - it answers with the server's text, or with an error string that names the tool.

  An adapter never throws.
- **The `datetime_helper` tool.** It computes UTC week boundaries (Monday to Sunday) and
  UTC month boundaries, and answers them as JSON text with ECMAScript ISO time stamps.
- **The monitors.** `PerformanceMonitor` keeps a list of integer values per metric name and
  summarises it. `CustomAgentMonitor` is a callback handler that keeps the counters of one
  agent run.

Modules:

- `wrappers.dfy` holds `Option` and `Result`.
- `js.dfy` (`JsValues`) holds the JavaScript value semantics the adapters rely on:
  - truthiness;
  - the `||` operator;
  - `String.prototype.trim`, over the white-space and line-terminator code points of ECMA-262.
- `mcp_client.dfy` (`McpClient`) holds the client class and its reply check.
  - The child process and the SDK session are identities, held as objects.
  - Three things are parameters of each call: whether the process hands out its pipes, the
    outcome of `connect`, and the server's reply to a request.
  - Ghost logs record every spawned process and every request handed to `callTool`.
- `dispatch.dfy` (`Dispatch`) holds one plan function per adapter. A plan is the decision
  up to the client call, `Result<Payload, Refusal>`. Beside the plans are the answer
  function and `Invoke`, which runs a plan against a client.
- `calendar.dfy` (`Calendar`) holds the ECMA-262 day and time arithmetic:
  - `Day`, `TimeWithinDay` and `WeekDay`;
  - `MakeDay` and `DayFromYear`;
  - conversion between day numbers and calendar dates, proved mutually inverse;
  - `Date.prototype.toISOString`, with lemmas that read each field back.
- `datetime_helper.dfy` (`DateTimeHelper`) holds the tool itself. Each `setUTCDate`,
  `setUTCHours` and `Date.UTC` step is the ECMA-262 function it performs on a time value.
  - The week and month answers are computed by the source's own steps.
  - The week answer is proved equal to an independent definition of the target's week.
  - The month answer is proved equal to the target's own month for every year outside 0 to
    99. For a year y from 0 to 99 it is that month of year 1900 + y, because `Date.UTC`
    reads two-digit years that way (see "## Findings").
- `agent_monitor.dfy` (`AgentMonitor`) holds:
  - the list arithmetic behind the summaries (sum, minimum, maximum, mean and the last
    five values);
  - the `PerformanceMonitor` class;
  - `MonitorRegistry`, the static `instance` slot behind `getInstance`;
  - the `CustomAgentMonitor` class.

Three behaviours of the code shape the model:

- **A failed `connect` leaves the session held.** The code stores the new SDK client before
  it awaits `connect` (lib/moodle-mcp-client.ts:69-72).
  - So after a failed connect the field stays set.
  - The next call reuses that session and spawns nothing (`McpClient.TwoCallsSpawnOnce`).
  - Whether a session completed its handshake is recorded, and the server oracle is told,
    so a call on a session whose connect failed need not answer like a connected one.
- **The client keeps no table of pending calls.** Request ids, timeouts and the failing of
  outstanding calls on exit all live inside the MCP SDK. `callTool` is therefore a
  parameter that maps a request to a reply or a rejection.
- **The week and month actions use `now` when `value` is absent or empty.** The schema
  types `value` as a string, so the numeric check of `convertTimestampToDateTimeISO` never
  passes. That action always answers with its wrapped error text (see "## Findings").

## Model

| member | source | states |
|---|---|---|
| JsValues.Or | src/tools/tool-get-activity-content.ts:54-59 | JavaScript's logical or of two values is one of its operands; it is truthy exactly when either operand is; it is the left operand when that one is truthy |
| JsValues.Truthy | src/tools/tool-get-activity-content.ts:61-63 | ToBoolean: undefined, null, false, 0 and "" are false, everything else is true |
| JsValues.Trim | src/tools/tool-get-courses.ts:57-58 | String.prototype.trim: the part of the string between its leading and its trailing white space |
| JsValues.TrimIsSubstring | src/tools/tool-get-courses.ts:57-58 | trim's result is the substring of s after the leading white space and before the trailing white space; a non-empty result neither begins nor ends with white space |
| JsValues.TrimBlank | src/tools/mcp-client-tools.ts:29 | a string trims to "" exactly when every character of it is white space (the "blank" test of both course tools) |
| JsValues.TrimIdempotent | src/tools/tool-get-courses.ts:58 | trimming a trimmed filter changes nothing |
| McpClient.ReplyText | lib/moodle-mcp-client.ts:96-105 | the reply is accepted exactly when `content` exists, is non-empty and its first item has type "text"; the answer is then that item's text, and otherwise the error is "Unexpected response format from MCP tool" followed by the tool name |
| McpClient.UnexpectedFormat | lib/moodle-mcp-client.ts:103-105 | the Error thrown for a reply that fails the check: "[MyMoodleMcpClient] Unexpected response format from MCP tool" followed by the tool name |
| McpClient.PipeFault | lib/moodle-mcp-client.ts:58-62 | the Error thrown when the spawned server process has no stdin or stdout pipe |
| McpClient.ReplyIgnoresLaterItems | lib/moodle-mcp-client.ts:96-101 | items after the first never change the outcome of the check |
| McpClient.Settle | lib/moodle-mcp-client.ts:88-105 | a rejected callTool propagates its fault unchanged; a reply goes through the reply check |
| McpClient.CallResult | lib/moodle-mcp-client.ts:77-105 | with a session, or with open pipes and a successful connect, the call settles with the server's reply; with no pipes it fails with the stdin/stdout error; a failed connect fails with the connect fault |
| McpClient.ServerProcess.constructor | lib/moodle-mcp-client.ts:36-38 | a spawned process runs the given script and is alive |
| McpClient.ServerProcess.Kill | lib/moodle-mcp-client.ts:114 | after kill the process is dead |
| McpClient.SdkClient.constructor | lib/moodle-mcp-client.ts:69 | the SDK client is named "MyClient", version "1.0.0" |
| McpClient.MoodleMcpClient.constructor | lib/moodle-mcp-client.ts:16-26 | a new client holds no session and no process, keeps the script path and has spawned and sent nothing |
| McpClient.MoodleMcpClient.StartAndConnect | lib/moodle-mcp-client.ts:28-75 | a held session is returned without spawning; otherwise exactly one new process for the script is spawned and held; without pipes no session is stored and the stdin/stdout error is raised; with pipes a new session is stored before connect settles, and the result is that session or the connect fault |
| McpClient.MoodleMcpClient.CallMcpTool | lib/moodle-mcp-client.ts:77-106 | the request handed to callTool is exactly `{name: toolName, input}`, sent once and only when the call reaches the server; the result is `CallResult` of the state found; spawning happens only when no session was held |
| McpClient.MoodleMcpClient.OnProcessExit | lib/moodle-mcp-client.ts:43-48 | the exit listener forgets the session and changes nothing else; the process reference stays until the next spawn |
| McpClient.MoodleMcpClient.OnProcessError | lib/moodle-mcp-client.ts:49-56 | the error listener forgets the session and changes nothing else |
| McpClient.MoodleMcpClient.Shutdown | lib/moodle-mcp-client.ts:108-118 | afterwards neither a session nor a process is held; a held process has been killed; with nothing held nothing is changed, so a second shutdown does nothing |
| McpClient.TwoCallsSpawnOnce | lib/moodle-mcp-client.ts:29-36 | two calls with open pipes and no exit in between spawn at most one process; the second call goes to callTool on the session the first call stored, which completed its handshake exactly when the first connect succeeded |
| McpClient.CallAfterShutdown | lib/moodle-mcp-client.ts:108-118 | after shutdown the next call spawns exactly one new process for the same script and behaves as a call that found no session |
| McpClient.CallAfterExit | lib/moodle-mcp-client.ts:43-48 | after the process exits the next call spawns exactly one new process and behaves as a call that found no session |
| Dispatch.UserToken | src/tools/tool-get-activity-content.ts:54-56 | the token is the one in `configurable` when that is truthy, else the one in `metadata`; it is truthy exactly when either is |
| Dispatch.AmbientCourse | src/tools/tool-get-activity-content.ts:57-59 | the course in context is chosen the same way, `configurable` before `metadata` |
| Dispatch.Put | src/tools/tool-get-activity-details.ts:56-64 | assigning undefined to a field leaves it out of the sent object; any other value is stored; other fields are untouched |
| Dispatch.FetchActivityContentPlan | src/tools/tool-get-activity-content.ts:54-94 | a falsy token gives the token error naming fetch_activity_content; then `activity_id` wins with payload `{moodle_token, activity_id}`; else `course_id` and `activity_name` from the arguments; else the course in context with `activity_name`; else the disambiguation error; the call goes out exactly when token and identification are both present |
| Dispatch.ActivityDetailsPlan | src/tools/tool-get-activity-details.ts:45-85 | the same decision naming get_activity_details, on a payload seeded with the course in context: with `activity_id` the payload also carries that course when it is defined; an explicit `course_id` overrides it |
| Dispatch.CoursesPlan | src/tools/tool-get-courses.ts:44-59 | a falsy token gives the token error without a tool name; otherwise the payload carries the token and at most a filter, which is present exactly for a non-blank filter and is then its trimmed text |
| Dispatch.CourseActivitiesPlan | src/tools/tool-get-course-activities.ts:54-63 | the token comes from the arguments; an empty one gives "Token do utilizador não fornecido."; otherwise the payload is exactly `{moodle_token, course_id}` copied from the arguments |
| Dispatch.ResourceFilePlan | src/tools/tool-get-resource-file.ts:41-62 | the token is checked before the URL; an invalid URL gives the resource_file_url error; otherwise the payload is exactly `{moodle_token, resource_file_url, mimetype}` with the mimetype unchecked |
| Dispatch.PageModulePlan | src/tools/tool-get-page-module.ts:39-58 | the token is checked before the URL; an invalid URL gives the page_content_url error; otherwise the payload is exactly `{moodle_token, page_content_url}` |
| Dispatch.CourseContentsPlan | src/tools/tool-course-details.ts:36-49 | a falsy token gives the token error; otherwise the payload is exactly `{moodle_token, course_id}` with the course id unchanged |
| Dispatch.LegacyCoursesPlan | src/tools/mcp-client-tools.ts:27-31 | the older get_courses tool (the same code as lib/moodle-mcp-client.ts:147-152) sends no token; the filter is present exactly for a non-blank string and is sent untrimmed; otherwise the payload is `{}` |
| Dispatch.Plan | src/tools/tool-get-activity-content.ts:50-94 | each tool call is decided by that tool's own plan; the legacy get_courses never refuses |
| Dispatch.FaultText | src/tools/tool-get-activity-content.ts:108-111 | the newer adapters report an Error's message and the JSON text of anything else; the legacy tools report the message when it is non-empty and the JSON text otherwise |
| Dispatch.Answer | src/tools/tool-get-activity-content.ts:101-112 | the server's text is returned unchanged; a failure becomes the tool's error prefix and the fault's text |
| Dispatch.RefusalText | src/tools/tool-get-activity-content.ts:61-63 | the exact early error strings: the token error with and without the tool name (src/tools/tool-get-resource-file.ts:45, src/tools/tool-get-course-activities.ts:57), the ambiguous-activity error (line 93) and the invalid-URL error (src/tools/tool-get-resource-file.ts:51) |
| Dispatch.ToolName | src/tools/tool-get-activity-content.ts:34 | the `name` each tool class declares; both course-list tools are named get_courses (src/tools/tool-get-courses.ts:25, src/tools/mcp-client-tools.ts:6) |
| Dispatch.ErrorPrefix | src/tools/tool-get-activity-content.ts:111 | the newer tools answer a failure with "Erro na ferramenta" and their name; the legacy get_courses with "Error in tool" and its name (src/tools/mcp-client-tools.ts:39) |
| Dispatch.Invoke | src/tools/tool-get-activity-content.ts:50-113 | a refusal answers with its text and leaves the client untouched; otherwise the plan's payload is sent once under the tool's name and the answer is built from how the call settled; a client that had a session keeps it, its process and its spawn log; a client without one spawns exactly one fresh process, has a session exactly when the pipes opened and is ready exactly when the connect also succeeded; every path returns a string |
| Dispatch.PlanCarriesToken | src/tools/tool-get-activity-content.ts:61-72 | every adapter except the legacy ones sends a truthy `moodle_token`, and for the config-token adapters it is the user's token |
| Dispatch.TokenCheckedFirst | src/tools/tool-get-resource-file.ts:41-52 | without a token every config-token adapter refuses with its token error, whatever its other arguments (an invalid URL included) |
| Dispatch.ActivityToolsAgree | src/tools/tool-get-activity-details.ts:56-85 | the two activity tools accept the same arguments; the details payload differs from the content payload only by the course in context, added when the content payload has no course |
| Dispatch.CoursesFilterIsTrimmed | src/tools/tool-get-courses.ts:57-59 | a filter that is sent is non-empty, has no white space at either end and occurs inside the given filter |
| Dispatch.NullFilterSendsTokenOnly | test/test_mcp_server.test.ts:49-52 | a null filter sends the token alone |
| Dispatch.FailureNamesTool | src/tools/tool-get-courses.ts:71-79 | every failure answer contains the name of the tool it came from |
| Calendar.TimeWithinDay | src/tools/tool-datetime-helper.ts:73 | the time of day lies in [0, msPerDay) and with the day number gives back the time value |
| Calendar.WeekDay | src/tools/tool-datetime-helper.ts:68 | getUTCDay lies in 0..6 |
| Calendar.DaysInMonth | src/tools/tool-datetime-helper.ts:97-104 | every month has 28 to 31 days |
| Calendar.MonthStep | src/tools/tool-datetime-helper.ts:97-104 | month m ends where month m + 1 begins; the months fill exactly the year |
| Calendar.MonthsIncrease | src/tools/tool-datetime-helper.ts:92-104 | later months of a year begin at least 28 days per month later |
| Calendar.YearLength | src/tools/tool-datetime-helper.ts:92-104 | DayFromYear(y + 1) is DayFromYear(y) plus 365, or 366 in a leap year |
| Calendar.YearsIncrease | src/tools/tool-datetime-helper.ts:92-104 | later years begin at least 365 days per year later |
| Calendar.YearUp | src/tools/tool-datetime-helper.ts:93 | the upward search finds the year whose days contain n |
| Calendar.YearDown | src/tools/tool-datetime-helper.ts:93 | the downward search finds the year whose days contain n |
| Calendar.YearOf | src/tools/tool-datetime-helper.ts:93 | YearFromTime: day n lies in the returned year |
| Calendar.MonthFrom | src/tools/tool-datetime-helper.ts:93 | MonthFromTime: the day of the year lies in the returned month |
| Calendar.CivilFromDays | src/tools/tool-datetime-helper.ts:71 | UTC year, month and date of a day number form a valid date whose day number is n |
| Calendar.YearUnique | src/tools/tool-datetime-helper.ts:93 | a day lies in exactly one year |
| Calendar.MonthUnique | src/tools/tool-datetime-helper.ts:93 | a day of a year lies in exactly one month |
| Calendar.CivilInYear | src/tools/tool-datetime-helper.ts:92-104 | a valid date's day number lies inside its year and inside its month |
| Calendar.SameDate | src/tools/tool-datetime-helper.ts:92-104 | valid dates with the same day number have the same fields |
| Calendar.DaysFromCivilInjective | src/tools/tool-datetime-helper.ts:92-104 | distinct valid dates have distinct day numbers |
| Calendar.CivilRoundTrip | src/tools/tool-datetime-helper.ts:92-104 | a valid date is the date of its own day number: the two conversions are inverse |
| Calendar.Digits | src/tools/tool-datetime-helper.ts:80-81 | the zero-padded field has exactly the width asked for and consists of decimal digits |
| Calendar.DigitsRoundTrip | src/tools/tool-datetime-helper.ts:80-81 | a number that fits the width reads back unchanged from its digits |
| Calendar.DateTextFields | src/tools/tool-datetime-helper.ts:80-81 | for a four-digit year the date text is YYYY-MM-DD and each field reads back as the date's year, month and day |
| Calendar.ClockTextFields | src/tools/tool-datetime-helper.ts:80-81 | the clock text is HH:mm:ss.sss and each field reads back as the value it was made from |
| Calendar.TimeTextFields | src/tools/tool-datetime-helper.ts:80-81 | the time text of a time of day reads back as its hours, minutes, seconds and milliseconds |
| Calendar.TimeDecomposition | src/tools/tool-datetime-helper.ts:80-81 | those four fields give the time of day back |
| Calendar.IsoString | src/tools/tool-datetime-helper.ts:80-81 | Date.prototype.toISOString: the UTC date, "T", the time of day and "Z", with a six-digit signed year outside 0 to 9999 |
| Calendar.IsoStringFields | src/tools/tool-datetime-helper.ts:80-81 | for four-digit years toISOString is 24 characters: the UTC date, "T", the time of day and "Z", which together give the time value back |
| DateTimeHelper.SetUtcDate | src/tools/tool-datetime-helper.ts:70-72 | setUTCDate: same year, month and time of day, with the given date of the month, which may lie outside the month |
| DateTimeHelper.SetUtcHours | src/tools/tool-datetime-helper.ts:73 | setUTCHours with four arguments: same day, the given time of day |
| DateTimeHelper.DateUtc | src/tools/tool-datetime-helper.ts:92-103 | Date.UTC(year, month, date): MakeDay at midnight, with a year from 0 to 99 read as 1900 + year |
| DateTimeHelper.MakeDay | src/tools/tool-datetime-helper.ts:92-104 | Date.UTC's day for a month in range is the day number of that calendar date |
| DateTimeHelper.SetUtcDateIsMakeDay | src/tools/tool-datetime-helper.ts:69-72 | setUTCDate is MakeDay of the UTC year and month with the new date, at the same time of day |
| DateTimeHelper.SetUtcDateShift | src/tools/tool-datetime-helper.ts:76 | setting the date k past the current one moves the time value by k whole days |
| DateTimeHelper.DayShift | src/tools/tool-datetime-helper.ts:69-76 | moving by k whole days moves the day number by k |
| DateTimeHelper.MoveThenSetTime | src/tools/tool-datetime-helper.ts:69-77 | moving k days and then setting the hours lands on day Day(t) + k at that time of day |
| DateTimeHelper.WeekStart | src/tools/tool-datetime-helper.ts:68-73 | the start date is midnight of the target's day moved by the Monday shift |
| DateTimeHelper.WeekEnd | src/tools/tool-datetime-helper.ts:75-77 | the end date is the last millisecond of the day six days after the start |
| DateTimeHelper.MondayOnOrBefore | src/tools/tool-datetime-helper.ts:68-72 | the shifted day is the Monday on or before the target, at most six days back, and six days later is a Sunday |
| DateTimeHelper.WeekBounds | src/tools/tool-datetime-helper.ts:68-77 | the week starts on a Monday at 00:00:00.000 and ends seven days less a millisecond later, on a Sunday at 23:59:59.999; it contains the target; a Sunday target gets the Monday six days earlier |
| DateTimeHelper.WeekSteps | src/tools/tool-datetime-helper.ts:68-77 | the week action's startDate and endDate, computed by its setUTCDate and setUTCHours steps |
| DateTimeHelper.WeekStepsAreWeekBounds | src/tools/tool-datetime-helper.ts:68-77 | the Date objects the code computes are exactly that week |
| DateTimeHelper.MonthStepsAsWritten | src/tools/tool-datetime-helper.ts:92-104 | the month action's startDate and endDate as written: Date.UTC of the first of the month and of day 0 of the next month, then setUTCHours |
| DateTimeHelper.MonthSteps | src/tools/tool-datetime-helper.ts:92-104 | the same steps with the year taken as it is, without Date.UTC's reading of two-digit years |
| DateTimeHelper.MonthSpan | src/tools/tool-datetime-helper.ts:92-104 | a month runs from the first millisecond of its first day to the last millisecond of its last day |
| DateTimeHelper.MonthEnd | src/tools/tool-datetime-helper.ts:97-104 | day 0 of the next month is the last day of the month, December included |
| DateTimeHelper.MonthStepsAreMonthSpan | src/tools/tool-datetime-helper.ts:92-104 | with the year taken as it is, the month steps give exactly the month, leap-year February and December included |
| DateTimeHelper.MonthStepsAgree | src/tools/tool-datetime-helper.ts:92-104 | outside years 0 to 99 the code as written and the corrected steps agree |
| DateTimeHelper.MonthBounds | src/tools/tool-datetime-helper.ts:92-104 | the target's UTC month: the start is the first of that month at 00:00:00.000, the end is its last day at 23:59:59.999, and the target lies between them |
| DateTimeHelper.TargetInMonth | src/tools/tool-datetime-helper.ts:86-104 | the target's day lies between the first and the last day of its month |
| DateTimeHelper.MonthStepsAreMonthBounds | src/tools/tool-datetime-helper.ts:92-104 | the corrected month steps answer with exactly that month |
| DateTimeHelper.TwoDigitYearShift | src/tools/tool-datetime-helper.ts:92-104 | as written, a year y from 0 to 99 gives the month of year 1900 + y |
| DateTimeHelper.BeforeCenturyLater | src/tools/tool-datetime-helper.ts:92-104 | every date of year y comes before any month of year 1900 + y |
| DateTimeHelper.TwoDigitYearMissesTarget | src/tools/tool-datetime-helper.ts:92-104 | as written, a target in a year from 0 to 99 gets a month that begins after the target |
| DateTimeHelper.MonthStepsOfYearMonth | src/tools/tool-datetime-helper.ts:92-104 | as written, year y and 0-based month m give month m + 1 of year y, or of year 1900 + y when y is from 0 to 99 |
| DateTimeHelper.AnsweredMonth | src/tools/tool-datetime-helper.ts:92-104 | the interval the month action answers with: the target's UTC month, in year 1900 + y for a UTC year y from 0 to 99 |
| DateTimeHelper.AnsweredMonthOf | src/tools/tool-datetime-helper.ts:92-104 | the answered month in terms of the target's getUTCFullYear and getUTCMonth |
| DateTimeHelper.MonthStepsAnswerMonth | src/tools/tool-datetime-helper.ts:92-104 | the month action's steps, applied to the target's UTC year and month, give exactly the answered month |
| DateTimeHelper.AnsweredMonthIsMonthBounds | src/tools/tool-datetime-helper.ts:92-104 | outside years 0 to 99 the answered month is the target's own month, which contains the target |
| DateTimeHelper.AnsweredMonthOfTwoDigitYear | src/tools/tool-datetime-helper.ts:92-104 | for a target on date y-m-d of a year y from 0 to 99 the answered month is month m of year 1900 + y, and it begins after the target |
| DateTimeHelper.TargetDate | src/tools/tool-datetime-helper.ts:62 | `value ? new Date(value) : now`: an absent or empty value gives now, anything else is parsed |
| DateTimeHelper.DateTimeHelper | src/tools/tool-datetime-helper.ts:44-118 | the current-time action answers with now's ISO text; the convert action always answers with its wrapped error; the week and month actions use now for an absent or empty value, answer an unparsable date with the wrapped "inválida" error, and otherwise answer the JSON of WeekBounds, or of AnsweredMonth (the target's month, in year 1900 + y for a year y from 0 to 99) |
| DateTimeHelper.IntendedMonthAction | src/tools/tool-datetime-helper.ts:85-110 | the month action as evidently intended: an unparsable date gives the wrapped error, otherwise the JSON of the target's own month (MonthBounds), for every year |
| DateTimeHelper.UtcFullYear | src/tools/tool-datetime-helper.ts:93 | getUTCFullYear: the year of the UTC calendar date of a time value |
| DateTimeHelper.UtcMonth | src/tools/tool-datetime-helper.ts:99-100 | getUTCMonth: the month of that date, counted from 0 |
| DateTimeHelper.UtcDate | src/tools/tool-datetime-helper.ts:70-71 | getUTCDate: the day of the month of that date |
| DateTimeHelper.MondayShift | src/tools/tool-datetime-helper.ts:71 | the days the week action adds to the date: back to Monday, and six days back from a Sunday |
| DateTimeHelper.ToolError | src/tools/tool-datetime-helper.ts:116-117 | the catch block's answer: "Erro na DateTimeHelperTool (", the action, "): " and the message |
| DateTimeHelper.NotNumeric | src/tools/tool-datetime-helper.ts:55-57 | the message of the convert action's refusal of a value that is not a number |
| DateTimeHelper.InvalidDate | src/tools/tool-datetime-helper.ts:64-66 | the message for an unparsable date, naming the week or the month action (lines 88-90) |
| DateTimeHelper.JsonPair | src/tools/tool-datetime-helper.ts:79-82 | JSON.stringify of an object of two string fields that need no escaping, in declaration order |
| DateTimeHelper.WeekAnswer | src/tools/tool-datetime-helper.ts:79-82 | the week answer: start_of_week and end_of_week as ISO texts |
| DateTimeHelper.MonthAnswer | src/tools/tool-datetime-helper.ts:106-109 | the month answer: start_of_month and end_of_month as ISO texts |
| DateTimeHelper.IntendedConvertAction | src/tools/tool-datetime-helper.ts:54-59 | the convert action as intended: a value that is not a number answers with the NotNumeric error; a number of seconds answers with the ISO text of that instant |
| DateTimeHelper.WholeSecondsIsoText | src/tools/tool-datetime-helper.ts:59 | the ISO text of a whole number of seconds in a four-digit year is 24 characters, its milliseconds field reads 0, and its date and time of day give the time value back |
| DateTimeHelper.IntendedConvertNamesInstant | src/tools/tool-datetime-helper.ts:59 | the intended convert answer for a number of seconds in a four-digit year names exactly that instant, with "000" milliseconds |
| DateTimeHelper.ConvertNeverConverts | src/tools/tool-datetime-helper.ts:17-19 | as written (value typed as an optional string), the convert action never answers with the intended ISO text, whatever the value |
| DateTimeHelper.WeekOfJanuaryTenth2024 | src/tools/tool-datetime-helper.ts:35 | the week of Wednesday 2024-01-10 runs from Monday 2024-01-08 00:00:00.000 to Sunday 2024-01-14 23:59:59.999 |
| AgentMonitor.Sum | lib/agent-monitor.ts:204 | `values.reduce((a, b) => a + b)` over the recorded values |
| AgentMonitor.Min | lib/agent-monitor.ts:215 | `Math.min(...values)` of a non-empty list |
| AgentMonitor.Max | lib/agent-monitor.ts:216 | `Math.max(...values)` of a non-empty list |
| AgentMonitor.Recent | lib/agent-monitor.ts:217 | `values.slice(-5)`: the last five values, or all of them when there are fewer |
| AgentMonitor.MinIsLeast | lib/agent-monitor.ts:215 | Math.min of a non-empty list is one of its values and no value is below it |
| AgentMonitor.MaxIsGreatest | lib/agent-monitor.ts:216 | Math.max of a non-empty list is one of its values and no value is above it |
| AgentMonitor.Mean | lib/agent-monitor.ts:201-206 | the mean of no values is 0; otherwise the mean times the count is the sum |
| AgentMonitor.SumBounds | lib/agent-monitor.ts:204 | the sum lies between count times the lower bound and count times the upper bound |
| AgentMonitor.MeanWithinBounds | lib/agent-monitor.ts:214-216 | the average lies between the minimum and the maximum |
| AgentMonitor.RecentIsTail | lib/agent-monitor.ts:217 | `slice(-5)` holds the last min(5, count) values, in recording order |
| AgentMonitor.Summarize | lib/agent-monitor.ts:212-218 | a summary's count is the list length; min and max are members bounding every value; the average is the mean and lies between them; recent is the tail of the list |
| AgentMonitor.PerformanceMonitor.constructor | lib/agent-monitor.ts:185 | a new monitor holds no metrics |
| AgentMonitor.PerformanceMonitor.RecordMetric | lib/agent-monitor.ts:194-199 | the value is appended to the name's list, created when absent; every other name keeps its list; every stored list stays non-empty |
| AgentMonitor.PerformanceMonitor.GetAverageMetric | lib/agent-monitor.ts:201-206 | a never-recorded name averages 0; otherwise the average times the count is the sum |
| AgentMonitor.PerformanceMonitor.GetMetricSummary | lib/agent-monitor.ts:208-222 | one summary per recorded name and no other; each is the summary of that name's list and its average is getAverageMetric of the name |
| AgentMonitor.PerformanceMonitor.Reset | lib/agent-monitor.ts:224-226 | afterwards no metric is held |
| AgentMonitor.RecordLeavesOthers | lib/agent-monitor.ts:194-199 | recording under one name leaves the values of every other name unchanged |
| AgentMonitor.MonitorRegistry.constructor | lib/agent-monitor.ts:184 | before the first getInstance no monitor exists |
| AgentMonitor.MonitorRegistry.GetInstance | lib/agent-monitor.ts:187-192 | the first call creates an empty monitor and keeps it; later calls return the kept one |
| AgentMonitor.SameInstance | lib/agent-monitor.ts:187-192 | two getInstance calls return the same monitor |
| AgentMonitor.Clip | lib/agent-monitor.ts:72 | the logged output is the first min(500, length) characters of the output |
| AgentMonitor.InputText | lib/agent-monitor.ts:71 | JSON.parse receives the tool input when it is a non-empty string and "{}" otherwise |
| AgentMonitor.CustomAgentMonitor.constructor | lib/agent-monitor.ts:25-28 | a new handler starts a run: no tool calls, no LLM calls, status running |
| AgentMonitor.CustomAgentMonitor.ResetStats | lib/agent-monitor.ts:30-38 | the counters are those of a run started now: no tool calls, 0 LLM calls, 0 duration, status running |
| AgentMonitor.CustomAgentMonitor.HandleChainStart | lib/agent-monitor.ts:41-48 | a chain whose namespace includes "agents" resets the counters; any other chain leaves them as they were |
| AgentMonitor.CustomAgentMonitor.HandleToolStart | lib/agent-monitor.ts:51-52 | the tool's start time is remembered |
| AgentMonitor.CustomAgentMonitor.HandleToolEnd | lib/agent-monitor.ts:66-75 | exactly one record is appended, with the clipped output, the parsed input and duration now minus the remembered start; nothing else changes; every logged output stays within 500 characters |
| AgentMonitor.CustomAgentMonitor.HandleLLMStart | lib/agent-monitor.ts:94-95 | the LLM count goes up by exactly one and nothing else changes |
| AgentMonitor.CustomAgentMonitor.HandleChainEnd | lib/agent-monitor.ts:123-125 | the status becomes completed and the total duration is now minus the start time |
| AgentMonitor.CustomAgentMonitor.HandleChainError | lib/agent-monitor.ts:144-145 | the status becomes error and nothing else changes |
| AgentMonitor.CustomAgentMonitor.GetStats | lib/agent-monitor.ts:150-152 | the copy equals the counters, and every logged output in it is within 500 characters |
| AgentMonitor.ToolRoundTrip | lib/agent-monitor.ts:51-75 | a tool that starts and ends appends exactly one record (tool name, parsed input, clipped output, the time between the two callbacks as duration, the end time as timestamp) and leaves every other counter as it was; the output limit stays kept |

## Left out
- DateTimeHelper.IntendedConvertAction: the number of seconds is a whole number; the
  fractional seconds a JavaScript number can carry are not modelled.
- Process and SDK plumbing are not modelled. This covers `spawn`, the stderr forwarding, the
  `StdioClientTransport` (which starts the server a second time), request correlation and
  framing. A process and a session are bare identities.
- McpClient.MoodleMcpClient.StartAndConnect: the stdin/stdout check is the parameter
  `pipesOpen`, the outcome of `connect` is the parameter `connectFault`, and a failing
  `spawn` is not modelled.
- Calls are modelled one at a time. In the source, a second call that starts while the
  first is suspended at `await this.client.connect(...)` (lib/moodle-mcp-client.ts:72) finds
  the session already stored and uses it before its handshake has finished. That
  interleaving is not modelled.
- McpClient.TwoCallsSpawnOnce: what a session whose connect failed answers is left to the
  server oracle, which is told that the handshake did not complete; the SDK's behaviour in
  that case is not part of this model.
- McpClient.MoodleMcpClient.OnProcessError: the listener's rethrow happens inside the event
  emitter, outside any call, and is not modelled.
- McpClient.MoodleMcpClient.constructor: `path.resolve` is not modelled; the path is kept as
  given.
- The Zod and LangChain machinery is not modelled: `StructuredTool`, schema parsing
  and the description texts. Each `_call` receives arguments that are already typed, with
  optional fields as `Option`.
- Dispatch.ResourceFilePlan and Dispatch.PageModulePlan: whether `new URL(...)` accepts a
  string is the parameter `validUrl`; the WHATWG URL parser is not modelled.
- Dispatch.FaultText: a thrown value is reduced to three things: whether it is an Error, its
  message and its JSON text. A legacy tool catching `null` or `undefined` would throw on
  `error.message`; that path is not modelled.
- JavaScript numbers become Dafny integers. Activity and course ids, metric values, time
  values and durations are therefore whole numbers, and averages are exact reals rather than
  floating point.
- DateTimeHelper.DateTimeHelper: several pieces are left out or made parameters.
  - Date-string parsing (`new Date(value)`) is the parameter `parse`.
  - The clock reading `new Date()` is the parameter `now`.
  - The time-value limit of ±8.64e15 ms, past which `toISOString` throws, is not modelled.
  - The `default` branch is left out, because the action type has exactly the four actions.
- Calendar.IsoStringFields: the field read-back is stated for four-digit years only.
  Six-digit extended years are formatted but not read back.
- AgentMonitor.CustomAgentMonitor.HandleToolEnd: when `JSON.parse` throws, this model pushes
  nothing and returns false, whereas the source's exception propagates to the callback
  manager. The two `Date.now()` reads are the parameters `now` and `timestamp`. `tool.name`
  is taken as the value given.
- AgentMonitor.Clip and JsValues.Trim count Unicode code points; JavaScript's `substring`
  and `trim` count UTF-16 code units. The two differ only for characters outside the Basic
  Multilingual Plane.
- AgentMonitor.PerformanceMonitor.GetMetricSummary: the summary is a map. The insertion
  order in which a JavaScript object lists its keys is not modelled.
- AgentMonitor.CustomAgentMonitor.GetStats: the copy is a value. The shallow copy in the
  source shares its `toolCalls` array with the handler; that aliasing is not modelled.
- Logging-only members are not modelled:
  - handleToolError, handleLLMEnd and handleAgentAction, which only log;
  - StructuredLogger, LangSmithTracer and exportLogs, whose time stamp is a clock read;
  - lib/logger.ts and lib/agent-dashboard.ts;
  - every `console` call.
- The demos under lib/demos and src/index.ts consist only of model calls and are not part of
  this model. The integration test is used only as a source of example inputs.

## Findings

| source | as written | input that shows it | evidently intended | confidence | as-written member | corrected member |
|---|---|---|---|---|---|---|
| src/tools/tool-datetime-helper.ts:92-104 | The month bounds are built with `Date.UTC(year, month, …)`. `Date.UTC` reads a year from 0 to 99 as 1900 + year. | The target 0050-03-15T00:00:00.000Z answers with March 1950, which begins after the target. | The bounds of the target's own month, in the target's own year. | not executed | DateTimeHelper.AnsweredMonthOfTwoDigitYear | DateTimeHelper.IntendedMonthAction |
| src/tools/tool-datetime-helper.ts:54-59 | The convert action refuses every value that is not of type number, but the schema at lines 17-19 admits only an optional string. | The value "1700000000" answers with the NotNumeric error. | The ISO text of that many seconds, 2023-11-14T22:13:20.000Z. | not executed | DateTimeHelper.ConvertNeverConverts | DateTimeHelper.IntendedConvertAction |
