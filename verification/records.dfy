/** The typed records the Fitbit parser produces, one per endpoint. Every field
    the JSON may omit is an `Option`; a present parent never implies present
    children. Fields the metrics dereference without a null check are modelled
    as always present. */
module Records {
  import opened Base

  /** A calendar date as a day number; `d + 1` is the next day. */
  type Date = int

  // ---------------------------------------------------------------------------
  // Heart rate (`/activities/heart/date/{date}/1d.json`)
  // ---------------------------------------------------------------------------

  /** The value block of one daily heart-rate summary. */
  datatype HeartRateValue = HeartRateValue(restingHeartRate: Option<int>)

  /** One daily heart-rate summary; its `value` is read without a null check. */
  datatype HeartRateDay = HeartRateDay(dateTime: Option<string>, value: HeartRateValue)

  /** One intraday reading; its `value` is unboxed to a Java `int`. */
  datatype HeartRatePoint = HeartRatePoint(time: Option<string>, value: int)

  /** The intraday block, whose dataset may itself be missing. */
  datatype HeartRateIntraday = HeartRateIntraday(dataset: Option<seq<HeartRatePoint>>)

  datatype HeartRateData = HeartRateData(
    activitiesHeart: seq<HeartRateDay>,
    activitiesHeartIntraday: Option<HeartRateIntraday>
  )

  // ---------------------------------------------------------------------------
  // Active-zone minutes (`/activities/active-zone-minutes/date/{date}/1d.json`)
  // ---------------------------------------------------------------------------

  datatype ActiveZoneMinutesValue = ActiveZoneMinutesValue(activeZoneMinutes: Option<int>)

  /** One daily entry; its `value` is read without a null check. */
  datatype ActiveZoneMinutesDay = ActiveZoneMinutesDay(dateTime: Option<string>, value: ActiveZoneMinutesValue)

  datatype ActiveZoneMinutesData = ActiveZoneMinutesData(
    activitiesActiveZoneMinutes: Option<seq<ActiveZoneMinutesDay>>
  )

  // ---------------------------------------------------------------------------
  // Sleep log (`/1.2/user/-/sleep/date/{date}.json`)
  // ---------------------------------------------------------------------------

  datatype SleepStage = SleepStage(minutes: Option<int>)

  datatype SleepLevelsSummary = SleepLevelsSummary(
    rem: Option<SleepStage>,
    light: Option<SleepStage>,
    deep: Option<SleepStage>
  )

  datatype SleepLevels = SleepLevels(summary: Option<SleepLevelsSummary>)

  /** One sleep session. */
  datatype Sleep = Sleep(levels: Option<SleepLevels>)

  datatype SleepSummary = SleepSummary(totalMinutesAsleep: Option<int>)

  datatype SleepLogData = SleepLogData(
    summary: Option<SleepSummary>,
    sleep: Option<seq<Sleep>>
  )

  // ---------------------------------------------------------------------------
  // Daily activity summary (`/activities/date/{date}.json`)
  // ---------------------------------------------------------------------------

  /** One logged activity. Timestamps are kept as their text. */
  datatype Activity = Activity(
    activityId: Option<int>,
    activityParentId: Option<int>,
    activityParentName: Option<string>,
    calories: Option<int>,
    description: Option<string>,
    duration: Option<int>,
    hasActiveZoneMinutes: Option<bool>,
    hasStartTime: Option<bool>,
    isFavorite: Option<bool>,
    lastModified: Option<string>,
    logId: Option<int>,
    name: Option<string>,
    startDate: Option<string>,
    startTime: Option<string>,
    steps: Option<int>
  )

  datatype Goals = Goals(
    activeMinutes: Option<int>,
    caloriesOut: Option<int>,
    distance: Option<real>,
    floors: Option<int>,
    steps: Option<int>
  )

  datatype Distance = Distance(activity: Option<string>, distance: Option<real>)

  /** The day's totals; the heart-rate zone list is not modelled. */
  datatype Summary = Summary(
    activeScore: Option<int>,
    activityCalories: Option<int>,
    caloriesBMR: Option<int>,
    caloriesOut: Option<int>,
    distances: Option<seq<Distance>>,
    elevation: Option<real>,
    fairlyActiveMinutes: Option<int>,
    floors: Option<int>,
    lightlyActiveMinutes: Option<int>,
    marginalCalories: Option<int>,
    restingHeartRate: Option<int>,
    sedentaryMinutes: Option<int>,
    steps: Option<int>,
    veryActiveMinutes: Option<int>
  )

  datatype DailyActivitySummary = DailyActivitySummary(
    activities: Option<seq<Activity>>,
    goals: Option<Goals>,
    summary: Option<Summary>
  )

  // ---------------------------------------------------------------------------
  // Weight log (`/body/log/weight/date/{date}.json`)
  // ---------------------------------------------------------------------------

  /** The weight log is only passed through by the client; its fields are not
      part of this model. */
  type WeightLogData
}
