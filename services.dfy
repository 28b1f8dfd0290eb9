/**
 * The pure branching of habits/services.py: which weekday digit, which
 * interval length and which hour list a periodicity label selects, and the
 * crontab rows the two cron paths ask for. A label that no branch of
 * `set_schedule_every_day` or `set_schedule_a_few_time` matches leaves the
 * selected value unbound, which is `None` here.
 */
module Services {
  import opened Wrappers
  import opened Models

  const Wildcard: string := "*"
  const Moscow: string := "Europe/Moscow"

  /** A crontab schedule row: every field of `CrontabSchedule` the source sets. */
  datatype Crontab = Crontab(
    minute: string,
    hour: string,
    dayOfMonth: string,
    monthOfYear: string,
    dayOfWeek: string,
    timezone: string)

  /** The weekday labels in cron order: Sunday is day 0, Saturday day 6. */
  const WeekdaysFromSunday: seq<string> :=
    [Sunday, Monday, Tuesday, Wednesday, Thursday, Friday, Saturday]

  /** The labels handled by `set_schedule_every_day`. */
  const IntervalPeriodicities: seq<string> :=
    [EveryDay, EveryWeek, EveryTwoDays, EveryThreeDays, EveryFourDays]

  /** The labels handled by `set_schedule_a_few_time`. */
  const FewTimesPeriodicities: seq<string> := [TwoTimesInDay, ThreeTimesInDay]

  /** The one-character cron day-of-week string for day `k` of the week. */
  function DayDigit(k: nat): (d: string)
    requires k < 7
    ensures |d| == 1 && '0' <= d[0] <= '6'
    ensures d[0] as int - '0' as int == k
  {
    [('0' as int + k) as char]
  }

  /**
   * `need_to_send`: the cron day of week for a weekday label. Monday to
   * Saturday give "1" to "6"; Sunday and every other input give "0".
   */
  function NeedToSend(periodicity: string): (day: string)
    ensures |day| == 1 && '0' <= day[0] <= '6'
    ensures day != "0" <==> periodicity in WeekdaysFromSunday[1..]
  {
    if periodicity == Monday then "1"
    else if periodicity == Tuesday then "2"
    else if periodicity == Wednesday then "3"
    else if periodicity == Thursday then "4"
    else if periodicity == Friday then "5"
    else if periodicity == Saturday then "6"
    else "0"
  }

  /** `need_to_send` numbers the week from Sunday: the k-th weekday label gets digit k. */
  lemma NeedToSendNumbersTheWeek()
    ensures forall k :: 0 <= k < 7 ==> NeedToSend(WeekdaysFromSunday[k]) == DayDigit(k)
  {
  }

  /** Two weekday labels get the same day digit only if they are the same label. */
  lemma NeedToSendSeparatesWeekdays(a: string, b: string)
    requires a in WeekdaysFromSunday && b in WeekdaysFromSunday
    ensures NeedToSend(a) == NeedToSend(b) <==> a == b
  {
  }

  /**
   * The interval length, in days, that `set_schedule_every_day` selects;
   * `None` for a label no branch matches (the length is then never bound).
   */
  function IntervalEvery(periodicity: string): (every: Option<nat>)
    ensures every.Some? <==> periodicity in IntervalPeriodicities
    ensures every.Some? ==> 1 <= every.value <= 7
  {
    if periodicity == EveryDay then Some(1)
    else if periodicity == EveryWeek then Some(7)
    else if periodicity == EveryTwoDays then Some(2)
    else if periodicity == EveryThreeDays then Some(3)
    else if periodicity == EveryFourDays then Some(4)
    else None
  }

  /** Each interval label selects its own length: 1, 7, 2, 3 and 4 days in label order. */
  lemma IntervalEveryTable()
    ensures forall k :: 0 <= k < 5 ==> IntervalEvery(IntervalPeriodicities[k]) == Some([1, 7, 2, 3, 4][k])
    ensures forall a, b :: a in IntervalPeriodicities && b in IntervalPeriodicities ==>
      (IntervalEvery(a) == IntervalEvery(b) <==> a == b)
  {
  }

  /**
   * The hour list that `set_schedule_a_few_time` selects; `None` for a
   * label neither branch matches.
   */
  function FewTimesHours(periodicity: string): (hours: Option<string>)
    ensures hours.Some? <==> periodicity in FewTimesPeriodicities
    ensures periodicity == TwoTimesInDay ==> hours == Some("9,17")
    ensures periodicity == ThreeTimesInDay ==> hours == Some("8,14,19")
  {
    if periodicity == TwoTimesInDay then Some("9,17")
    else if periodicity == ThreeTimesInDay then Some("8,14,19")
    else None
  }

  /** The crontab row `set_schedule_a_few_time` gets or creates, if the label selects hours. */
  function FewTimesCrontab(periodicity: string): (tab: Option<Crontab>)
    ensures tab.Some? <==> periodicity in FewTimesPeriodicities
    ensures tab.Some? ==>
      && tab.value.minute == "0"
      && Some(tab.value.hour) == FewTimesHours(periodicity)
      && tab.value.dayOfMonth == Wildcard && tab.value.monthOfYear == Wildcard
      && tab.value.dayOfWeek == Wildcard
      && tab.value.timezone == Moscow
  {
    match FewTimesHours(periodicity)
    case None => None
    case Some(hours) => Some(Crontab("0", hours, Wildcard, Wildcard, Wildcard, Moscow))
  }

  /**
   * The crontab row `set_schedule_every_weekday` gets or creates: 08:00 on
   * the day `need_to_send` gives. Every label, weekday or not, yields a row.
   */
  function WeekdayCrontab(periodicity: string): (tab: Crontab)
    ensures tab.minute == "0" && tab.hour == "8"
    ensures tab.dayOfMonth == Wildcard && tab.monthOfYear == Wildcard
    ensures tab.dayOfWeek == NeedToSend(periodicity)
    ensures tab.timezone == Moscow
  {
    Crontab("0", "8", Wildcard, Wildcard, NeedToSend(periodicity), Moscow)
  }

  /**
   * A schedule as a habit's periodicity asks for it: a number of days, or a
   * crontab row.
   */
  datatype ScheduleSpec = EveryDays(every: nat) | OnCrontab(tab: Crontab)

  /**
   * A modelling convenience, not code of the source: the choice among the
   * three `set_schedule_*` functions is made by the habit views, which are
   * not part of this model. Interval labels go to the interval path,
   * the two "times a day" labels to the hour path, the seven weekday labels
   * to the weekday path, anything else nowhere.
   */
  function Interpret(periodicity: string): (spec: Option<ScheduleSpec>)
    ensures spec.Some? <==> periodicity in Periodicities
    ensures periodicity in IntervalPeriodicities ==>
      spec == Some(EveryDays(IntervalEvery(periodicity).value))
    ensures periodicity in FewTimesPeriodicities ==>
      spec == Some(OnCrontab(FewTimesCrontab(periodicity).value))
    ensures periodicity in WeekdaysFromSunday ==>
      spec == Some(OnCrontab(WeekdayCrontab(periodicity)))
  {
    if periodicity in IntervalPeriodicities then Some(EveryDays(IntervalEvery(periodicity).value))
    else if periodicity in FewTimesPeriodicities then Some(OnCrontab(FewTimesCrontab(periodicity).value))
    else if periodicity in WeekdaysFromSunday then Some(OnCrontab(WeekdayCrontab(periodicity)))
    else None
  }

  /** The three families split the fourteen labels with no overlap. */
  lemma PeriodicityFamiliesPartition(p: string)
    ensures p in Periodicities <==>
      p in IntervalPeriodicities || p in FewTimesPeriodicities || p in WeekdaysFromSunday
    ensures p in IntervalPeriodicities ==> p !in FewTimesPeriodicities && p !in WeekdaysFromSunday
    ensures p in FewTimesPeriodicities ==> p !in WeekdaysFromSunday
  {
  }

  /** Different periodicity labels are given different schedules. */
  lemma InterpretSeparatesPeriodicities(a: string, b: string)
    requires a in Periodicities && b in Periodicities
    ensures Interpret(a) == Interpret(b) <==> a == b
  {
    PeriodicityFamiliesPartition(a);
    PeriodicityFamiliesPartition(b);
    IntervalEveryTable();
    if a in WeekdaysFromSunday && b in WeekdaysFromSunday {
      NeedToSendSeparatesWeekdays(a, b);
    }
  }
}
