/** The derived metrics of `FitbitTool`. Each metric fetches one day's record,
    or every day of an inclusive range, through a per-date fetch function and
    folds the records into one answer. A failed fetch is never recovered from:
    it becomes the metric's error. Absent fields inside a fetched record are
    resolved locally, by a sentinel or by 0. */
module Tool {
  import opened Base
  import opened Records
  import opened Client
  import opened Days
  import opened Text
  import opened Intraday

  // ---------------------------------------------------------------------------
  // Fetching through the client
  // ---------------------------------------------------------------------------

  /** The tool's per-date calls, made through one client state. */
  function HeartRateFetcher(c: Client, b: Backend): Fetcher<HeartRateData> {
    date => GetHeartRateByDate(c, b, date).result
  }

  function ActiveZoneMinutesFetcher(c: Client, b: Backend): Fetcher<ActiveZoneMinutesData> {
    date => GetActiveZoneMinutesByDate(c, b, date).result
  }

  function SleepLogFetcher(c: Client, b: Backend): Fetcher<SleepLogData> {
    date => GetSleepLogByDate(c, b, date).result
  }

  function DailyActivityFetcher(c: Client, b: Backend): Fetcher<DailyActivitySummary> {
    date => GetDailyActivitySummary(c, b, date).result
  }

  // ---------------------------------------------------------------------------
  // Resting heart rate
  // ---------------------------------------------------------------------------

  /** The first daily summary's resting heart rate, or the sentinel -1 when
      there is no summary or it has no resting value. */
  function RestingHeartRateOf(data: HeartRateData): (r: int)
    ensures |data.activitiesHeart| == 0 ==> r == -1
    ensures |data.activitiesHeart| > 0 ==>
      var resting := data.activitiesHeart[0].value.restingHeartRate;
      (resting.None? ==> r == -1) && (resting.Some? ==> r == resting.value)
  {
    if |data.activitiesHeart| == 0 || data.activitiesHeart[0].value.restingHeartRate == None then -1
    else data.activitiesHeart[0].value.restingHeartRate.value
  }

  /** Only the first daily summary matters: any later ones can be replaced
      without changing the answer. */
  lemma RestingHeartRateIgnoresLaterEntries(data: HeartRateData, later: seq<HeartRateDay>)
    requires |data.activitiesHeart| > 0
    ensures RestingHeartRateOf(data.(activitiesHeart := [data.activitiesHeart[0]] + later)) == RestingHeartRateOf(data)
  {
  }

  /** A result other than -1 is a resting value that was actually reported;
      -1 is returned exactly when none was, or when -1 itself was. */
  lemma RestingHeartRateSentinel(data: HeartRateData)
    ensures RestingHeartRateOf(data) == -1 <==>
      |data.activitiesHeart| == 0
      || data.activitiesHeart[0].value.restingHeartRate in {None, Some(-1)}
  {
  }

  function RestingHeartRate(fetch: Fetcher<HeartRateData>, date: Date): (r: Result<int, ClientError>)
    ensures fetch(date).Failure? ==> r == Failure(fetch(date).error)
    ensures fetch(date).Success? ==> r == Success(RestingHeartRateOf(fetch(date).value))
  {
    fetch(date).MapValue(RestingHeartRateOf)
  }

  /** Through the client, a 200 answer the heart-rate parser accepts gives
      that record's resting value. */
  lemma RestingHeartRateThroughClient(c: Client, b: Backend, date: Date)
    requires var answer := b.transport(Request(Path(HeartRate, b.isoDate(date)), c.accessToken));
      answer.Some? && answer.value.status == 200 && b.parsers.heartRate(answer.value.body).Some?
    ensures var body := b.transport(Request(Path(HeartRate, b.isoDate(date)), c.accessToken)).value.body;
      RestingHeartRate(HeartRateFetcher(c, b), date) == Success(RestingHeartRateOf(b.parsers.heartRate(body).value))
  {
    var call := GetHeartRateByDate(c, b, date);
    assert call.requests[0] == Request(Path(HeartRate, b.isoDate(date)), c.accessToken);
  }

  // ---------------------------------------------------------------------------
  // Heart rate outside the safe range
  // ---------------------------------------------------------------------------

  function HeartRateOutsideSafeRange(fetch: Fetcher<HeartRateData>, date: Date, minThreshold: int, maxThreshold: int)
    : (r: Result<int, ClientError>)
    ensures fetch(date).Failure? ==> r == Failure(fetch(date).error)
    ensures fetch(date).Success? ==> r == Success(OutOfRangeValue(fetch(date).value, minThreshold, maxThreshold))
  {
    fetch(date).MapValue(data => OutOfRangeValue(data, minThreshold, maxThreshold))
  }

  // ---------------------------------------------------------------------------
  // Active minutes over a range of days
  // ---------------------------------------------------------------------------

  /** One day's contribution: the first entry's active-zone minutes, 0 when
      the list is absent or empty or the value is absent. */
  function DayActiveMinutes(azm: ActiveZoneMinutesData): (m: int)
    ensures azm.activitiesActiveZoneMinutes.None? || |azm.activitiesActiveZoneMinutes.value| == 0 ==> m == 0
    ensures azm.activitiesActiveZoneMinutes.Some? && |azm.activitiesActiveZoneMinutes.value| > 0 ==>
      m == azm.activitiesActiveZoneMinutes.value[0].value.activeZoneMinutes.GetOr(0)
    ensures m != 0 ==>
      && azm.activitiesActiveZoneMinutes.Some?
      && |azm.activitiesActiveZoneMinutes.value| > 0
      && azm.activitiesActiveZoneMinutes.value[0].value.activeZoneMinutes == Some(m)
  {
    match azm.activitiesActiveZoneMinutes
    case None => 0
    case Some(entries) =>
      if |entries| == 0 then 0
      else entries[0].value.activeZoneMinutes.GetOr(0)
  }

  /** The summing loop over the fetched records. */
  function SumActiveMinutes(records: seq<ActiveZoneMinutesData>): int {
    if |records| == 0 then 0 else DayActiveMinutes(records[0]) + SumActiveMinutes(records[1..])
  }

  lemma {:induction false} SumActiveMinutesAppend(a: seq<ActiveZoneMinutesData>, b: seq<ActiveZoneMinutesData>)
    ensures SumActiveMinutes(a + b) == SumActiveMinutes(a) + SumActiveMinutes(b)
    decreases |a|
  {
    if |a| == 0 {
      assert a + b == b;
    } else {
      assert (a + b)[1..] == a[1..] + b;
      SumActiveMinutesAppend(a[1..], b);
    }
  }

  /** `getActiveMinutesInWeek`: fetch every day from `start` to `end`, then
      sum the days' contributions. */
  function ActiveMinutesInWeek(fetch: Fetcher<ActiveZoneMinutesData>, start: Date, end: Date): (r: Traced<int>)
    ensures start > end ==> r == Traced([], Success(0))
  {
    FetchRange(fetch, start, end, SumActiveMinutes)
  }

  /** Over a single day the total is that day's contribution. */
  lemma ActiveMinutesSingleDay(fetch: Fetcher<ActiveZoneMinutesData>, day: Date)
    requires fetch(day).Success?
    ensures ActiveMinutesInWeek(fetch, day, day).result == Success(DayActiveMinutes(fetch(day).value))
  {
    CollectRangeSingleDay(fetch, day);
    var records := [fetch(day).value];
    assert records[1..] == [];
    assert SumActiveMinutes(records) == DayActiveMinutes(records[0]) + SumActiveMinutes([]);
  }

  /** Summing a range is summing its two parts, split after any day. */
  lemma ActiveMinutesSplit(fetch: Fetcher<ActiveZoneMinutesData>, start: Date, mid: Date, end: Date)
    requires start - 1 <= mid <= end
    requires ActiveMinutesInWeek(fetch, start, end).result.Success?
    ensures ActiveMinutesInWeek(fetch, start, mid).result.Success?
    ensures ActiveMinutesInWeek(fetch, mid + 1, end).result.Success?
    ensures ActiveMinutesInWeek(fetch, start, end).result.value
         == ActiveMinutesInWeek(fetch, start, mid).result.value + ActiveMinutesInWeek(fetch, mid + 1, end).result.value
  {
    CollectRangeSplit(fetch, start, mid, end);
    SumActiveMinutesAppend(Collect(fetch, DayRange(start, mid)).result.value, Collect(fetch, DayRange(mid + 1, end)).result.value);
  }

  /** A three-day range whose middle day has no active-zone entry totals the
      first and last days' values. */
  lemma ActiveMinutesGapDay(fetch: Fetcher<ActiveZoneMinutesData>, day: Date)
    requires fetch(day).Success? && fetch(day + 1).Success? && fetch(day + 2).Success?
    requires fetch(day + 1).value.activitiesActiveZoneMinutes == Some([])
    ensures ActiveMinutesInWeek(fetch, day, day + 2).result
         == Success(DayActiveMinutes(fetch(day).value) + DayActiveMinutes(fetch(day + 2).value))
  {
    FetchRangeSucceedsIff(fetch, day, day + 2, SumActiveMinutes);
    ActiveMinutesSplit(fetch, day, day, day + 2);
    ActiveMinutesSplit(fetch, day + 1, day + 1, day + 2);
    ActiveMinutesSingleDay(fetch, day);
    ActiveMinutesSingleDay(fetch, day + 1);
    ActiveMinutesSingleDay(fetch, day + 2);
  }

  /** Through the client, one day of the range without a 200 answer (the
      request threw, or the status was another) aborts the whole sum. */
  lemma FailedCallAbortsActiveMinutes(c: Client, b: Backend, start: Date, end: Date, bad: Date)
    requires start <= bad <= end
    requires var answer := b.transport(Request(Path(ActiveZoneMinutes, b.isoDate(bad)), c.accessToken));
      answer.None? || answer.value.status != 200
    ensures ActiveMinutesInWeek(ActiveZoneMinutesFetcher(c, b), start, end).result.Failure?
  {
    var fetch := ActiveZoneMinutesFetcher(c, b);
    assert fetch(bad).Failure?;
    FetchRangeSucceedsIff(fetch, start, end, SumActiveMinutes);
  }

  // ---------------------------------------------------------------------------
  // Sleep
  // ---------------------------------------------------------------------------

  /** The minutes `getSleepHoursForDay` divides by 60, or `None` for its 0.0
      branch, taken when the summary or its total is absent. */
  function SleepMinutesForHours(data: SleepLogData): (r: Option<int>)
    ensures r.Some? <==> data.summary.Some? && data.summary.value.totalMinutesAsleep.Some?
    ensures r.Some? ==> r == data.summary.value.totalMinutesAsleep
  {
    match data.summary
    case None => None
    case Some(summary) => summary.totalMinutesAsleep
  }

  function SleepHoursForDay(fetch: Fetcher<SleepLogData>, date: Date): (r: Result<Option<int>, ClientError>)
    ensures fetch(date).Failure? ==> r == Failure(fetch(date).error)
    ensures fetch(date).Success? ==> r == Success(SleepMinutesForHours(fetch(date).value))
  {
    fetch(date).MapValue(SleepMinutesForHours)
  }

  /** Every link from a session to its REM minutes is present. */
  predicate HasRemMinutes(s: Sleep) {
    && s.levels.Some?
    && s.levels.value.summary.Some?
    && s.levels.value.summary.value.rem.Some?
    && s.levels.value.summary.value.rem.value.minutes.Some?
  }

  /** A session's REM minutes, 0 when any link of the chain is absent. */
  function SessionRemMinutes(s: Sleep): (m: int)
    ensures !HasRemMinutes(s) ==> m == 0
    ensures HasRemMinutes(s) ==> Some(m) == s.levels.value.summary.value.rem.value.minutes
  {
    if HasRemMinutes(s) then s.levels.value.summary.value.rem.value.minutes.value else 0
  }

  function SumRemMinutes(sessions: seq<Sleep>): int {
    if |sessions| == 0 then 0 else SessionRemMinutes(sessions[0]) + SumRemMinutes(sessions[1..])
  }

  lemma {:induction false} SumRemMinutesAppend(a: seq<Sleep>, b: seq<Sleep>)
    ensures SumRemMinutes(a + b) == SumRemMinutes(a) + SumRemMinutes(b)
    decreases |a|
  {
    if |a| == 0 {
      assert a + b == b;
    } else {
      assert (a + b)[1..] == a[1..] + b;
      SumRemMinutesAppend(a[1..], b);
    }
  }

  /** A session's REM minutes reach the total: the total over a session and
      the ones after it is its minutes plus theirs. */
  lemma SumRemMinutesCons(s: Sleep, rest: seq<Sleep>)
    ensures SumRemMinutes([s] + rest) == SessionRemMinutes(s) + SumRemMinutes(rest)
  {
    assert ([s] + rest)[1..] == rest;
  }

  /** A night with a single session totals that session's REM minutes. */
  lemma RemSleepMinutesOneSession(data: SleepLogData, s: Sleep)
    requires data.sleep == Some([s])
    ensures RemSleepMinutesOf(data) == SessionRemMinutes(s)
  {
    SumRemMinutesCons(s, []);
    assert [s] + [] == [s];
  }

  /** A session missing any link of the REM chain is skipped: inserting it
      anywhere changes nothing. */
  lemma SessionWithoutRemIsSkipped(a: seq<Sleep>, s: Sleep, b: seq<Sleep>)
    requires !HasRemMinutes(s)
    ensures SumRemMinutes(a + [s] + b) == SumRemMinutes(a + b)
  {
    SumRemMinutesAppend(a + [s], b);
    SumRemMinutesAppend(a, [s]);
    SumRemMinutesAppend(a, b);
    assert [s][1..] == [];
  }

  /** With no negative REM value reported, the total is not negative. */
  lemma {:induction false} SumRemMinutesNonNegative(sessions: seq<Sleep>)
    requires forall i :: 0 <= i < |sessions| ==> SessionRemMinutes(sessions[i]) >= 0
    ensures SumRemMinutes(sessions) >= 0
    decreases |sessions|
  {
    if |sessions| > 0 {
      SumRemMinutesNonNegative(sessions[1..]);
    }
  }

  /** `getRemSleepMinutes` on one day's record: 0 without sessions,
      otherwise the sum over the sessions in order. */
  function RemSleepMinutesOf(data: SleepLogData): (r: int)
    ensures data.sleep.None? ==> r == 0
    ensures data.sleep.Some? ==> r == SumRemMinutes(data.sleep.value)
  {
    match data.sleep
    case None => 0
    case Some(sessions) => if |sessions| == 0 then 0 else SumRemMinutes(sessions)
  }

  function RemSleepMinutes(fetch: Fetcher<SleepLogData>, date: Date): (r: Result<int, ClientError>)
    ensures fetch(date).Failure? ==> r == Failure(fetch(date).error)
    ensures fetch(date).Success? ==> r == Success(RemSleepMinutesOf(fetch(date).value))
  {
    fetch(date).MapValue(RemSleepMinutesOf)
  }

  /** Through the client, a 200 sleep answer the parser rejects is a parse
      error for the sleep endpoint, not a count of 0. */
  lemma SleepParseErrorSurfaces(c: Client, b: Backend, date: Date)
    requires var answer := b.transport(Request(Path(SleepLog, b.isoDate(date)), c.accessToken));
      answer.Some? && answer.value.status == 200 && b.parsers.sleepLog(answer.value.body).None?
    ensures RemSleepMinutes(SleepLogFetcher(c, b), date) == Failure(ParseError(SleepLog))
    ensures SleepHoursForDay(SleepLogFetcher(c, b), date) == Failure(ParseError(SleepLog))
  {
    var call := GetSleepLogByDate(c, b, date);
    assert call.requests[0] == Request(Path(SleepLog, b.isoDate(date)), c.accessToken);
  }

  /** A day's sleep hours read only the summary: the sessions can be
      anything. */
  lemma SleepMinutesIgnoreSessions(data: SleepLogData, sessions: Option<seq<Sleep>>)
    ensures SleepMinutesForHours(data.(sleep := sessions)) == SleepMinutesForHours(data)
  {
  }

  // ---------------------------------------------------------------------------
  // Sport activities over a range of days
  // ---------------------------------------------------------------------------

  /** The lower-cased text names a sport, a gym or an aerobic activity. */
  predicate MentionsSport(lowered: string) {
    Contains(lowered, "sport") || Contains(lowered, "gym") || Contains(lowered, "aerobic")
  }

  /** An activity counts when its lower-cased name or lower-cased parent name
      mentions a sport; an absent name reads as "". */
  predicate IsSportActivity(a: Activity) {
    MentionsSport(Lower(a.name.GetOr(""))) || MentionsSport(Lower(a.activityParentName.GetOr("")))
  }

  /** The sport activities of a list, in their original order. */
  function SportActivitiesOf(activities: seq<Activity>): (r: seq<Activity>)
    ensures |r| <= |activities|
    ensures forall a :: a in r <==> a in activities && IsSportActivity(a)
  {
    if |activities| == 0 then []
    else
      var head := if IsSportActivity(activities[0]) then [activities[0]] else [];
      head + SportActivitiesOf(activities[1..])
  }

  /** Filtering keeps relative order: filtering a concatenation concatenates
      the filtered parts. */
  lemma {:induction false} SportActivitiesOfAppend(a: seq<Activity>, b: seq<Activity>)
    ensures SportActivitiesOf(a + b) == SportActivitiesOf(a) + SportActivitiesOf(b)
    decreases |a|
  {
    if |a| == 0 {
      assert a + b == b;
    } else {
      assert (a + b)[0] == a[0];
      assert (a + b)[1..] == a[1..] + b;
      SportActivitiesOfAppend(a[1..], b);
    }
  }

  /** A day's sport activities; a day without an activities list has none. */
  function DaySportActivities(summary: DailyActivitySummary): seq<Activity> {
    match summary.activities
    case None => []
    case Some(activities) => SportActivitiesOf(activities)
  }

  /** A day's sport activities are exactly the sport activities its list
      holds; a day without a list has none. */
  lemma DaySportActivitiesMembers(summary: DailyActivitySummary, a: Activity)
    ensures a in DaySportActivities(summary) <==>
      summary.activities.Some? && a in summary.activities.value && IsSportActivity(a)
  {
  }

  /** The days' sport activities, concatenated in day order. */
  function ConcatSportActivities(summaries: seq<DailyActivitySummary>): seq<Activity> {
    if |summaries| == 0 then [] else DaySportActivities(summaries[0]) + ConcatSportActivities(summaries[1..])
  }

  lemma {:induction false} ConcatSportActivitiesAppend(a: seq<DailyActivitySummary>, b: seq<DailyActivitySummary>)
    ensures ConcatSportActivities(a + b) == ConcatSportActivities(a) + ConcatSportActivities(b)
    decreases |a|
  {
    if |a| == 0 {
      assert a + b == b;
    } else {
      assert (a + b)[0] == a[0];
      assert (a + b)[1..] == a[1..] + b;
      ConcatSportActivitiesAppend(a[1..], b);
      var first := DaySportActivities(a[0]);
      assert first + (ConcatSportActivities(a[1..]) + ConcatSportActivities(b))
          == first + ConcatSportActivities(a[1..]) + ConcatSportActivities(b);
    }
  }

  /** An activity is in the concatenation exactly when it is a sport
      activity and some day's list holds it. */
  lemma {:induction false} ConcatSportActivitiesMembership(summaries: seq<DailyActivitySummary>, a: Activity)
    ensures a in ConcatSportActivities(summaries) <==>
      IsSportActivity(a) && exists i :: 0 <= i < |summaries| && a in summaries[i].activities.GetOr([])
    decreases |summaries|
  {
    if |summaries| > 0 {
      ConcatSportActivitiesMembership(summaries[1..], a);
      DaySportActivitiesMembers(summaries[0], a);
      if exists i :: 0 <= i < |summaries[1..]| && a in summaries[1..][i].activities.GetOr([]) {
        var i :| 0 <= i < |summaries[1..]| && a in summaries[1..][i].activities.GetOr([]);
        assert summaries[1..][i] == summaries[i + 1];
      }
      if exists i :: 0 <= i < |summaries| && a in summaries[i].activities.GetOr([]) {
        var i :| 0 <= i < |summaries| && a in summaries[i].activities.GetOr([]);
        if i > 0 {
          assert summaries[1..][i - 1] == summaries[i];
        }
      }
    }
  }

  /** `getSportActivitiesInWeek`: fetch every day from `start` to `end`,
      then concatenate each day's sport activities in day order. */
  function SportActivitiesInWeek(fetch: Fetcher<DailyActivitySummary>, start: Date, end: Date): (r: Traced<seq<Activity>>)
    ensures start > end ==> r == Traced([], Success([]))
  {
    FetchRange(fetch, start, end, ConcatSportActivities)
  }

  /** Over a single day the result is that day's sport activities in their
      listed order. */
  lemma SportActivitiesSingleDay(fetch: Fetcher<DailyActivitySummary>, day: Date)
    requires fetch(day).Success?
    ensures SportActivitiesInWeek(fetch, day, day).result == Success(SportActivitiesOf(fetch(day).value.activities.GetOr([])))
  {
    CollectRangeSingleDay(fetch, day);
    var records := [fetch(day).value];
    assert records[1..] == [];
    assert ConcatSportActivities(records) == DaySportActivities(records[0]) + ConcatSportActivities([]);
    assert DaySportActivities(fetch(day).value) + [] == DaySportActivities(fetch(day).value);
  }

  /** Day order is kept: the result over a range is the result up to any day
      followed by the result after it. */
  lemma SportActivitiesSplit(fetch: Fetcher<DailyActivitySummary>, start: Date, mid: Date, end: Date)
    requires start - 1 <= mid <= end
    requires SportActivitiesInWeek(fetch, start, end).result.Success?
    ensures SportActivitiesInWeek(fetch, start, mid).result.Success?
    ensures SportActivitiesInWeek(fetch, mid + 1, end).result.Success?
    ensures SportActivitiesInWeek(fetch, start, end).result.value
         == SportActivitiesInWeek(fetch, start, mid).result.value + SportActivitiesInWeek(fetch, mid + 1, end).result.value
  {
    CollectRangeSplit(fetch, start, mid, end);
    ConcatSportActivitiesAppend(Collect(fetch, DayRange(start, mid)).result.value, Collect(fetch, DayRange(mid + 1, end)).result.value);
  }

  /** Everything in a successful result is a sport activity listed on some
      day of the range. */
  lemma SportActivitiesOnlyFromRange(fetch: Fetcher<DailyActivitySummary>, start: Date, end: Date, a: Activity)
    requires SportActivitiesInWeek(fetch, start, end).result.Success?
    requires a in SportActivitiesInWeek(fetch, start, end).result.value
    ensures IsSportActivity(a)
    ensures exists d :: start <= d <= end && fetch(d).Success? && a in fetch(d).value.activities.GetOr([])
  {
    var records := Collect(fetch, DayRange(start, end)).result.value;
    CollectRangeValues(fetch, start, end);
    ConcatSportActivitiesMembership(records, a);
    var i :| 0 <= i < |records| && a in records[i].activities.GetOr([]);
    assert fetch(start + i) == Success(records[i]);
  }

  /** When every day of the range is fetched, every sport activity listed on
      one of its days is in the result. */
  lemma SportActivitiesFromEveryDay(fetch: Fetcher<DailyActivitySummary>, start: Date, end: Date, d: Date, a: Activity)
    requires forall day :: start <= day <= end ==> fetch(day).Success?
    requires start <= d <= end
    requires a in fetch(d).value.activities.GetOr([]) && IsSportActivity(a)
    ensures SportActivitiesInWeek(fetch, start, end).result.Success?
    ensures a in SportActivitiesInWeek(fetch, start, end).result.value
  {
    FetchRangeSucceedsIff(fetch, start, end, ConcatSportActivities);
    var records := Collect(fetch, DayRange(start, end)).result.value;
    CollectDayValue(fetch, start, end, d);
    ConcatSportActivitiesMembership(records, a);
    assert 0 <= d - start < |records| && a in records[d - start].activities.GetOr([]);
  }

  /** Through the client, one day of the range without a 200 answer aborts
      the whole list. */
  lemma FailedCallAbortsSportActivities(c: Client, b: Backend, start: Date, end: Date, bad: Date)
    requires start <= bad <= end
    requires var answer := b.transport(Request(Path(DailyActivity, b.isoDate(bad)), c.accessToken));
      answer.None? || answer.value.status != 200
    ensures SportActivitiesInWeek(DailyActivityFetcher(c, b), start, end).result.Failure?
  {
    var fetch := DailyActivityFetcher(c, b);
    assert fetch(bad).Failure?;
    FetchRangeSucceedsIff(fetch, start, end, ConcatSportActivities);
  }

  /** An activity with only a name and a parent name. */
  function NamedActivity(name: string, parent: Option<string>): Activity {
    Activity(None, None, parent, None, None, None, None, None, None, None, None, Some(name), None, None, None)
  }

  /** "Sport Climbing" is a sport activity. */
  lemma SportClimbingCounts()
    ensures IsSportActivity(NamedActivity("Sport Climbing", None))
  {
    var climbing := Lower("Sport Climbing");
    assert climbing[..5] == "sport" by {
      assert climbing[0] == 's' && climbing[1] == 'p' && climbing[2] == 'o';
      assert climbing[3] == 'r' && climbing[4] == 't';
    }
    assert Contains(climbing, "sport");
  }

  /** No sport word occurs in "running". */
  lemma RunningMentionsNoSport()
    ensures !MentionsSport("running")
  {
    NotContainedWhenFirstCharMissing("running", "sport");
    NotContainedWhenFirstCharMissing("running", "gym");
    NotContainedWhenFirstCharMissing("running", "aerobic");
  }

  /** An absent name reads as "", which mentions nothing. */
  lemma EmptyMentionsNoSport()
    ensures !MentionsSport(Lower(""))
  {
    assert Lower("") == "";
    NotContainedWhenFirstCharMissing("", "sport");
    NotContainedWhenFirstCharMissing("", "gym");
    NotContainedWhenFirstCharMissing("", "aerobic");
  }

  /** "Running" with no parent name is not a sport activity. */
  lemma RunningDoesNotCount()
    ensures !IsSportActivity(NamedActivity("Running", None))
  {
    assert Lower("Running") == "running" by {
      assert |Lower("Running")| == 7;
      assert Lower("Running")[0] == 'r';
    }
    RunningMentionsNoSport();
    EmptyMentionsNoSport();
  }

  /** Steps for one day: the summary's steps, 0 when either is absent. */
  function StepsOf(data: DailyActivitySummary): (r: int)
    ensures data.summary.None? || data.summary.value.steps.None? ==> r == 0
    ensures data.summary.Some? && data.summary.value.steps.Some? ==> r == data.summary.value.steps.value
  {
    if data.summary.Some? && data.summary.value.steps.Some? then data.summary.value.steps.value else 0
  }

  /** A day's steps read only its summary: the activity list and the goals
      can be anything. */
  lemma StepsDependOnlyOnSummary(d1: DailyActivitySummary, d2: DailyActivitySummary)
    requires d1.summary == d2.summary
    ensures StepsOf(d1) == StepsOf(d2)
  {
  }

  function StepsForDay(fetch: Fetcher<DailyActivitySummary>, date: Date): (r: Result<int, ClientError>)
    ensures fetch(date).Failure? ==> r == Failure(fetch(date).error)
    ensures fetch(date).Success? ==> r == Success(StepsOf(fetch(date).value))
  {
    fetch(date).MapValue(StepsOf)
  }
}
