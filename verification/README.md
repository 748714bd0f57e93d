# Fitbit health metrics: a Dafny model

The healthcare agent answers questions about a user's health from Fitbit
records. This project models two things in Dafny:

- the agent's derived-metrics layer, `FitbitTool`;
- the pure part of the `FitbitClient` it calls.

`FitbitTool` computes these metrics:

- the resting heart rate of a day, with a `-1` sentinel;
- the intraday reading furthest outside a safe range;
- the active-zone minutes summed over an inclusive range of days;
- the REM minutes of a night's sleep sessions;
- the sport, gym and aerobic activities over a range of days;
- the steps of a day;
- whether a day's sleep log carries a total sleep time.

The client side covers:

- the five endpoint paths;
- the status dispatch, where 200 goes to the parser and anything else is an error carrying the status and body;
- a request that throws before any answer arrives, which is a transport error;
- the bearer token, which a token response overwrites only when it is read successfully.

Modules, one per file:

- `Base` (`base.dfy`): `Option` and `Result`.
- `Records` (`records.dfy`): the Fitbit records. Every field the JSON may omit is an `Option`. Dates are day numbers, so `plusDays(1)` is `+ 1` and `isAfter` is `>`.
- `Text` (`text.dfy`): ASCII lower-casing and substring search in the manner of `String.contains`.
- `Client` (`client.dfy`): the endpoint paths, request/response, the status dispatch, the five getters and the token update.
  - The client is an immutable value holding the access token and the PKCE code verifier.
  - A getter returns the requests it sent, its result and the client state afterwards.
  - The HTTP transport, the ISO date formatter and the JSON parsers are function parameters (`Backend`). The transport answers `None` when sending the request throws.
- `Days` (`days.dfy`): the inclusive ascending day range and the multi-day fetch loop.
  - All fetches happen before any aggregation.
  - The first failed fetch is the result, and the days actually fetched are recorded.
- `Intraday` (`intraday.dfy`): the one-pass out-of-range scan, with the loop state written as a fold over the prefix of readings.
- `Tool` (`tool.dfy`): the metrics.
  - Each metric takes a per-date fetch function that returns a record or a `ClientError`.
  - The `*Fetcher` functions build that function from the client's getters.

## Model

All paths are under `src/main/java/io/akka/health/`. `FitbitTool.java` is `agent/application/FitbitTool.java`, and `FitbitClient.java` is `fitbit/FitbitClient.java`.

| member | source | states |
|---|---|---|
| Tool.RestingHeartRateOf | src/main/java/io/akka/health/agent/application/FitbitTool.java:26-31 | -1 when there is no daily entry or the first entry has no resting value, otherwise exactly the first entry's resting value |
| Tool.RestingHeartRateIgnoresLaterEntries | src/main/java/io/akka/health/agent/application/FitbitTool.java:26-31 | replacing every entry after the first never changes the answer |
| Tool.RestingHeartRateSentinel | src/main/java/io/akka/health/agent/application/FitbitTool.java:26-31 | the answer is -1 iff no value was reported or the reported value was itself -1, so -1 is ambiguous |
| Tool.RestingHeartRate | src/main/java/io/akka/health/agent/application/FitbitTool.java:24-31 | a failed fetch is the result's error; a fetched record gives its resting heart rate |
| Intraday.Deviation | src/main/java/io/akka/health/agent/application/FitbitTool.java:50-56 | the deviation is positive exactly when the reading is strictly below the minimum or strictly above the maximum |
| Intraday.DeviationAmount | src/main/java/io/akka/health/agent/application/FitbitTool.java:50-56 | with min <= max the deviation is the distance from the reading to the range, the largest of 0, min - value and value - max; for any thresholds a reading below the minimum measures min - value, and one at or above the minimum but above the maximum measures value - max |
| Intraday.ScanPrefixSpec | src/main/java/io/akka/health/agent/application/FitbitTool.java:45-62 | after any number of readings the loop's two variables are unset together, are unset iff no reading deviates, and otherwise hold the deviation and value of the earliest reading whose deviation no other reading exceeds |
| Intraday.OutOfRangeValue | src/main/java/io/akka/health/agent/application/FitbitTool.java:39-64 | 0 when the readings are absent or empty or none deviates; otherwise the value of the first reading whose deviation equals the largest deviation |
| Intraday.OutOfRangeValueIsReading | src/main/java/io/akka/health/agent/application/FitbitTool.java:39-64 | the answer is 0 or the value of some reading of the day |
| Intraday.FirstPeakUnique | src/main/java/io/akka/health/agent/application/FitbitTool.java:58-61 | only one reading is the earliest with the largest deviation, so a later reading with an equal deviation never replaces it |
| Intraday.EmptyOrInRangeGivesZero | src/main/java/io/akka/health/agent/application/FitbitTool.java:39-64 | with every reading inside the range, the answer is 0 |
| Intraday.MaxDeviation | src/main/java/io/akka/health/agent/application/FitbitTool.java:45-62 | the reference for the loop: a deviation no reading exceeds and, when positive, one that some reading has |
| Intraday.MaxDeviationLeast | src/main/java/io/akka/health/agent/application/FitbitTool.java:45-62 | any bound on every reading's deviation bounds the largest one |
| Intraday.FirstWithDeviation | src/main/java/io/akka/health/agent/application/FitbitTool.java:58-61 | the reference for the tie rule: the position of the first reading with a given deviation, which does have it |
| Intraday.FirstWithDeviationFinds | src/main/java/io/akka/health/agent/application/FitbitTool.java:58-61 | a reading with the deviation and no earlier one with it is the one found |
| Intraday.ScanMatchesReference | src/main/java/io/akka/health/agent/application/FitbitTool.java:45-64 | the loop ends holding the largest deviation (unset when 0) and the value of the first reading that has it |
| Intraday.OutOfRangeValueIsFirstPeak | src/main/java/io/akka/health/agent/application/FitbitTool.java:39-64 | 0 when no reading deviates, otherwise the value of the earliest reading whose deviation no other reading exceeds |
| Intraday.DeviationShrinksWhenWidened | src/main/java/io/akka/health/agent/application/FitbitTool.java:50-56 | for a range with min <= max, widening it never moves a reading further outside |
| Intraday.WideningNeverIncreasesPeak | src/main/java/io/akka/health/agent/application/FitbitTool.java:45-62 | for a range with min <= max, widening it never increases the largest deviation |
| Intraday.InvertedThresholdsNotMonotone | src/main/java/io/akka/health/agent/application/FitbitTool.java:52-56 | with min > max, widening can increase the largest deviation (a reading of 80 against [100, 50] and [60, 50]) |
| Tool.RestingHeartRateThroughClient | src/main/java/io/akka/health/agent/application/FitbitTool.java:24-31 | through the client, a 200 heart-rate answer the parser accepts gives the resting value of the parsed record |
| Tool.HeartRateOutsideSafeRange | src/main/java/io/akka/health/agent/application/FitbitTool.java:37-64 | a failed fetch is the result's error; a fetched record gives its out-of-range value |
| Days.DayRange | src/main/java/io/akka/health/agent/application/FitbitTool.java:71-75 | the days from start to end inclusive, one each, in ascending order; none when start is after end |
| Days.DayRangeAscending | src/main/java/io/akka/health/agent/application/FitbitTool.java:71-75 | the range is strictly ascending and stays within [start, end] |
| Days.DayRangeSplit | src/main/java/io/akka/health/agent/application/FitbitTool.java:71-75 | a range is the range up to any day followed by the range after it |
| Days.Collect | src/main/java/io/akka/health/agent/application/FitbitTool.java:71-75 | the days fetched are a prefix of the list; on success all of them were fetched and there is one record per day |
| Days.CollectValues | src/main/java/io/akka/health/agent/application/FitbitTool.java:71-75 | on success the record at each position is what that position's day fetched |
| Days.CollectStopsAtFirstFailure | src/main/java/io/akka/health/agent/application/FitbitTool.java:71-75 | on failure the last day fetched failed with the returned error and every earlier day succeeded |
| Days.CollectSucceedsIffAllSucceed | src/main/java/io/akka/health/agent/application/FitbitTool.java:71-75 | the fetch loop succeeds iff every day's fetch succeeds |
| Days.CollectAppendAbort | src/main/java/io/akka/health/agent/application/FitbitTool.java:71-75 | a failure within the first days means none of the later days is fetched |
| Days.CollectAppendIssued | src/main/java/io/akka/health/agent/application/FitbitTool.java:71-75 | after the first days succeed, the later days are fetched exactly as on their own |
| Days.CollectAppendResult | src/main/java/io/akka/health/agent/application/FitbitTool.java:71-75 | after the first days succeed, the records are theirs followed by the later days' records, or the later days' error |
| Days.CollectRangeSuccess | src/main/java/io/akka/health/agent/application/FitbitTool.java:71-75 | over a day range: success iff every day succeeds, and then each day was fetched once in order, with day d's record at position d - start |
| Days.CollectRangeFailure | src/main/java/io/akka/health/agent/application/FitbitTool.java:71-75 | a failed range fetched the ascending run from start to the first failing day and returns that day's error |
| Days.CollectDayValue | src/main/java/io/akka/health/agent/application/FitbitTool.java:71-75 | in a successful range, position d - start holds the record day d fetched |
| Days.CollectRangeSingleDay | src/main/java/io/akka/health/agent/application/FitbitTool.java:71-75 | a one-day range yields that day's record alone |
| Days.CollectRangeSplit | src/main/java/io/akka/health/agent/application/FitbitTool.java:71-75 | the records of a successful range are those up to any day followed by those after it |
| Days.FetchRange | src/main/java/io/akka/health/agent/application/FitbitTool.java:71-77 | a start after the end fetches nothing and aggregates the empty list |
| Days.FetchRangeSucceedsIff | src/main/java/io/akka/health/agent/application/FitbitTool.java:71-77 | a multi-day operation succeeds iff every day's fetch does, and then it fetched every day once, in ascending order |
| Days.FetchRangeStopsAtFirstFailure | src/main/java/io/akka/health/agent/application/FitbitTool.java:71-77 | a failed multi-day operation fetched up to and including the first failing day, in order, and fails with that day's error, with no partial aggregate |
| Tool.DayActiveMinutes | src/main/java/io/akka/health/agent/application/FitbitTool.java:80-86 | 0 when the list is absent or empty; otherwise the first entry's active-zone minutes, 0 when that value is absent; so anything other than 0 is the first entry's present value |
| Tool.SumActiveMinutesAppend | src/main/java/io/akka/health/agent/application/FitbitTool.java:79-89 | the total over two lists of records is the sum of their totals |
| Tool.ActiveMinutesInWeek | src/main/java/io/akka/health/agent/application/FitbitTool.java:67-90 | a start after the end fetches nothing and totals 0 |
| Tool.ActiveMinutesSingleDay | src/main/java/io/akka/health/agent/application/FitbitTool.java:79-89 | over one day the total is that day's contribution |
| Tool.ActiveMinutesSplit | src/main/java/io/akka/health/agent/application/FitbitTool.java:71-89 | a successful total over a range is the total up to any day plus the total after it |
| Tool.ActiveMinutesGapDay | src/main/java/io/akka/health/agent/application/FitbitTool.java:79-89 | a middle day with an empty entry list contributes nothing to a three-day total |
| Tool.FailedCallAbortsActiveMinutes | src/main/java/io/akka/health/agent/application/FitbitTool.java:71-75 | through the client, a request that throws or a non-200 answer on any day of the range makes the whole call fail |
| Tool.SleepMinutesIgnoreSessions | src/main/java/io/akka/health/agent/application/FitbitTool.java:97-101 | the sleep hours read only the summary: replacing the session list never changes them |
| Tool.SleepMinutesForHours | src/main/java/io/akka/health/agent/application/FitbitTool.java:97-101 | the 0.0 branch is taken exactly when the summary or its total minutes asleep is absent; otherwise the total is what gets converted |
| Tool.SleepHoursForDay | src/main/java/io/akka/health/agent/application/FitbitTool.java:95-101 | a failed fetch is the result's error; a fetched record gives its minutes asleep or the 0.0 branch |
| Tool.SleepParseErrorSurfaces | src/main/java/io/akka/health/agent/application/FitbitTool.java:92-110 | through the client, a 200 sleep answer the parser rejects makes both sleep metrics a parse error for the sleep endpoint |
| Tool.SessionRemMinutes | src/main/java/io/akka/health/agent/application/FitbitTool.java:115-117 | a session contributes its REM minutes when every link of the chain is present, else 0 |
| Tool.SumRemMinutesCons | src/main/java/io/akka/health/agent/application/FitbitTool.java:114-117 | a session's REM minutes reach the total: the total over a session and those after it is its minutes plus theirs |
| Tool.SumRemMinutesAppend | src/main/java/io/akka/health/agent/application/FitbitTool.java:114-118 | the REM total over two lists of sessions is the sum of their totals |
| Tool.SessionWithoutRemIsSkipped | src/main/java/io/akka/health/agent/application/FitbitTool.java:114-118 | inserting a session that lacks any link of the REM chain anywhere changes nothing |
| Tool.SumRemMinutesNonNegative | src/main/java/io/akka/health/agent/application/FitbitTool.java:112-120 | with no negative REM value reported, the total is not negative |
| Tool.RemSleepMinutesOf | src/main/java/io/akka/health/agent/application/FitbitTool.java:109-120 | 0 without a session list; otherwise the REM total over the sessions in order, the empty list included |
| Tool.RemSleepMinutesOneSession | src/main/java/io/akka/health/agent/application/FitbitTool.java:109-120 | a night with one session totals that session's REM minutes |
| Tool.RemSleepMinutes | src/main/java/io/akka/health/agent/application/FitbitTool.java:107-120 | a failed fetch is the result's error; a fetched record gives its REM total |
| Text.Lower | src/main/java/io/akka/health/agent/application/FitbitTool.java:140-141 | lower-casing keeps the length and maps every character on its own |
| Text.LowerIdempotent | src/main/java/io/akka/health/agent/application/FitbitTool.java:140-141 | lower-casing leaves no upper-case letter, so it is idempotent |
| Text.OccursAtStart | src/main/java/io/akka/health/agent/application/FitbitTool.java:143-144 | an occurrence at index 0 is exactly a prefix |
| Text.ContainsIff | src/main/java/io/akka/health/agent/application/FitbitTool.java:143-144 | substring search finds a string iff it occurs at some index |
| Text.OccursAtShift | src/main/java/io/akka/health/agent/application/FitbitTool.java:143-144 | dropping the first character moves every later occurrence one index to the left |
| Text.ContainsInContext | src/main/java/io/akka/health/agent/application/FitbitTool.java:143-144 | a string found in a text is found in any text that extends it on either side |
| Text.OccurrenceStartsWithFirstChar | src/main/java/io/akka/health/agent/application/FitbitTool.java:143-144 | an occurrence of a non-empty string starts with its first character |
| Text.NotContainedWhenFirstCharMissing | src/main/java/io/akka/health/agent/application/FitbitTool.java:143-144 | a text in which the first character never appears where an occurrence could start does not contain the string |
| Tool.SportActivitiesOf | src/main/java/io/akka/health/agent/application/FitbitTool.java:138-146 | the filter keeps an activity iff it is listed and its lower-cased name or parent name mentions sport, gym or aerobic, and it never lengthens the list |
| Tool.SportActivitiesOfAppend | src/main/java/io/akka/health/agent/application/FitbitTool.java:138-146 | filtering keeps the listed order: filtering a concatenation concatenates the filtered parts |
| Tool.DaySportActivitiesMembers | src/main/java/io/akka/health/agent/application/FitbitTool.java:136-148 | a day's sport activities are exactly the sport activities its list holds, and none when the list is absent |
| Tool.ConcatSportActivitiesAppend | src/main/java/io/akka/health/agent/application/FitbitTool.java:135-150 | the days' activities are concatenated in day order |
| Tool.ConcatSportActivitiesMembership | src/main/java/io/akka/health/agent/application/FitbitTool.java:135-150 | an activity is in the result iff it is a sport activity and some day's activity list holds it |
| Tool.SportActivitiesInWeek | src/main/java/io/akka/health/agent/application/FitbitTool.java:123-153 | a start after the end fetches nothing and yields no activities |
| Tool.SportActivitiesSingleDay | src/main/java/io/akka/health/agent/application/FitbitTool.java:135-150 | over one day the result is the filter of that day's activity list, in listed order, and empty when the list is absent |
| Tool.SportActivitiesSplit | src/main/java/io/akka/health/agent/application/FitbitTool.java:127-150 | a successful result over a range is the result up to any day followed by the result after it |
| Tool.SportActivitiesOnlyFromRange | src/main/java/io/akka/health/agent/application/FitbitTool.java:127-152 | everything in a successful result is a sport activity held in the activity list of some successfully fetched day of the range |
| Tool.SportActivitiesFromEveryDay | src/main/java/io/akka/health/agent/application/FitbitTool.java:127-152 | when every day's fetch succeeds, the operation succeeds and every sport activity held in a day's activity list is in its result |
| Tool.FailedCallAbortsSportActivities | src/main/java/io/akka/health/agent/application/FitbitTool.java:127-131 | through the client, a request that throws or a non-200 answer on any day of the range makes the whole call fail |
| Tool.SportClimbingCounts | src/main/java/io/akka/health/agent/application/FitbitTool.java:140-144 | "Sport Climbing" counts, because matching ignores case |
| Tool.RunningMentionsNoSport | src/main/java/io/akka/health/agent/application/FitbitTool.java:143-144 | "running" contains none of the three words |
| Tool.EmptyMentionsNoSport | src/main/java/io/akka/health/agent/application/FitbitTool.java:140-144 | an absent name reads as "" and matches nothing |
| Tool.RunningDoesNotCount | src/main/java/io/akka/health/agent/application/FitbitTool.java:140-144 | "Running" with no parent name does not count |
| Tool.StepsOf | src/main/java/io/akka/health/agent/application/FitbitTool.java:160-163 | the summary's steps when both it and the value are present, 0 otherwise |
| Tool.StepsDependOnlyOnSummary | src/main/java/io/akka/health/agent/application/FitbitTool.java:160-163 | the steps read only the summary: two records with the same summary give the same steps |
| Tool.StepsForDay | src/main/java/io/akka/health/agent/application/FitbitTool.java:158-163 | a failed fetch is the result's error; a fetched record gives its steps |
| Client.PrefixMarks | src/main/java/io/akka/health/fitbit/FitbitClient.java:39-119 | the five path prefixes differ in the API version, the first segment or the segment after "activities/" |
| Client.PrefixesPrefixFree | src/main/java/io/akka/health/fitbit/FitbitClient.java:39-119 | no endpoint's prefix starts another's, so the five prefixes are pairwise distinct |
| Client.FramedOnlyByOwnEndpoint | src/main/java/io/akka/health/fitbit/FitbitClient.java:39-119 | a path built for one endpoint has no other endpoint's prefix and suffix around it |
| Client.ParsePathFromFinds | src/main/java/io/akka/health/fitbit/FitbitClient.java:39-119 | searching candidates that include the only endpoint framing a path finds it and the text between |
| Client.ParsePathRoundTrip | src/main/java/io/akka/health/fitbit/FitbitClient.java:39-119 | reading a built path back gives its endpoint and its date text |
| Client.PathInjective | src/main/java/io/akka/health/fitbit/FitbitClient.java:39-119 | distinct endpoints or distinct dates never share a path |
| Client.Dispatch | src/main/java/io/akka/health/fitbit/FitbitClient.java:46-54 | status 200 gives the parser's result on the body, with a parser failure becoming a parse error; any other status gives an error carrying that status and body |
| Client.DispatchIgnoresParserOnError | src/main/java/io/akka/health/fitbit/FitbitClient.java:52-54 | on a non-200 status the parser plays no part in the outcome |
| Client.Get | src/main/java/io/akka/health/fitbit/FitbitClient.java:37-55 | one request whose path reads back as the endpoint and the date, sent with the current token, with the client state unchanged; no answer is a transport error, an answer is dispatched on its status |
| Client.GetHeartRateByDate | src/main/java/io/akka/health/fitbit/FitbitClient.java:37-55 | one request for the heart-rate path of the date, with the current token, then the dispatch to the heart-rate parser, or a transport error when there is no answer |
| Client.GetActiveZoneMinutesByDate | src/main/java/io/akka/health/fitbit/FitbitClient.java:57-75 | one request for the active-zone-minutes path of the date, with the current token, then the dispatch to its parser, or a transport error when there is no answer |
| Client.GetSleepLogByDate | src/main/java/io/akka/health/fitbit/FitbitClient.java:77-95 | one request for the version 1.2 sleep path of the date, with the current token, then the dispatch to its parser, or a transport error when there is no answer |
| Client.GetWeightLogByDate | src/main/java/io/akka/health/fitbit/FitbitClient.java:97-115 | one request for the weight-log path of the date, with the current token, then the dispatch to its parser, or a transport error when there is no answer |
| Client.GetDailyActivitySummary | src/main/java/io/akka/health/fitbit/FitbitClient.java:117-139 | one request for the daily-activity path of the date, with the current token, then the dispatch to its parser, or a transport error when there is no answer |
| Client.NonSuccessIsSurfacedWithoutRetry | src/main/java/io/akka/health/fitbit/FitbitClient.java:41-54 | a non-200 answer, a 429 included, is an error with that status and body after exactly one request |
| Client.TransportFailureIsSurfacedWithoutRetry | src/main/java/io/akka/health/fitbit/FitbitClient.java:41-44 | a request that throws is a transport error for that endpoint after exactly one request |
| Client.ParseTokenResponse | src/main/java/io/akka/health/fitbit/FitbitClient.java:141-148 | a successful read returns the response and stores its access token, keeping the code verifier; a failed read is an error and leaves the client unchanged |
| Client.TokenReachesNextRequest | src/main/java/io/akka/health/fitbit/FitbitClient.java:141-148 | after a successful token read, the next getter sends the new token |

## Left out

- The HTTP transport, the response objects and all logging are I/O. The transport is a function parameter, `Backend.transport`, that answers with a response or with `None` when `invoke()` throws. Why it threw (timeout, refused connection) is not modelled; either way the getter fails with `TransportError` after its one request.
- JSON decoding (Jackson and `FitbitParser`) is a set of parser function parameters that may fail. `FitbitParser` is not part of this model.
- `generateCodeVerifier` and `generateCodeChallenge` (FitbitClient.java lines 151-167) are left out. They need `SecureRandom`, SHA-256 and Base64, none of which is modelled. The code verifier is only carried in the client state.
- ISO date formatting is the parameter `Backend.isoDate`. `LocalDate` is an integer day number.
- The division by 60.0 in `getSleepHoursForDay` is floating point. `Tool.SleepMinutesForHours` returns the minutes to be divided, or `None` for the 0.0 branch.
- Text.Lower: `toLowerCase` is locale-sensitive and covers all of Unicode; this model lower-cases ASCII letters only.
- Tool.SumActiveMinutes and Tool.SumRemMinutes use unbounded integers. Java's 32-bit `int` wrap-around in the totals is not modelled.
- A Java exception becomes a `Failure` value carrying a `ClientError`. The exception message text is not modelled.
- The model keeps the fields the source dereferences without a null check as always present:
  - the `activitiesHeart` list;
  - a heart entry's `value`;
  - an active-zone entry's `value`;
  - a reading's `value`.
  The source would throw on a missing one.
- `WeightLogData` is an abstract type, because its shape does not appear in the code modelled here.
- The heart-rate, active-zone and sleep records keep the fields the metrics read and a few they carry unread: the date and time stamps (`HeartRateDay.dateTime`, `HeartRatePoint.time`, `ActiveZoneMinutesDay.dateTime`) and the light and deep sleep stages. Other fields of those records are left out, and so is the `heartRateZones` field of `DailyActivitySummary.Summary`.
- `Bootstrap` (wiring and environment checks) and `OpenAiUtils` (an embedding-library wrapper) hold no logic of the metrics.
- Intraday.Deviation: Java computes `minThreshold - value` and `value - maxThreshold` in 32-bit `int`, which can wrap; this model uses unbounded integers. For example, a reading of 60 with both thresholds at `Integer.MIN_VALUE` wraps to a negative deviation in Java, so the source returns 0, while the model reports 60.
- Days.DayRange: a date is an unbounded day number. `LocalDate` stops at `LocalDate.MAX`, and `plusDays(1)` past it throws after the last fetch (FitbitTool.java lines 74 and 130); that limit is not modelled.
- Intraday.WideningNeverIncreasesPeak and Intraday.DeviationShrinksWhenWidened require min <= max. With inverted thresholds the source measures a reading above the minimum against the maximum, so widening is not monotone. Intraday.InvertedThresholdsNotMonotone exhibits this.
- Tool.RestingHeartRateOf: a reported resting value of -1 cannot be told apart from "no data". Tool.RestingHeartRateSentinel states this rather than hiding it.
- Intraday.OutOfRangeValue: a deviating reading whose value is 0 cannot be told apart from "nothing out of range", as in the source.
