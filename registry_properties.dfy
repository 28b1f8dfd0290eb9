/**
 * What repeated `set_schedule_*` calls do to the registry: interval rows
 * are shared, interval tasks accumulate under one name until that name is
 * taken, and a crontab call is idempotent per habit.
 */
module RegistryProperties {
  import opened Wrappers
  import opened Sequences
  import opened Models
  import opened Services
  import opened Registry

  /** The arguments of one `set_schedule_every_day` call. */
  datatype IntervalCall = IntervalCall(habitId: nat, periodicity: string, now: int)

  /** The registry after a series of `set_schedule_every_day` calls, whatever each one reports. */
  function RunEveryDay(st: Store, calls: seq<IntervalCall>): (end: Store)
    requires st.Valid()
    ensures end.Valid()
    ensures st.intervals <= end.intervals
    decreases |calls|
  {
    if calls == [] then st
    else
      var c := calls[0];
      RunEveryDay(st.SetScheduleEveryDay(c.habitId, c.periodicity, c.now).store, calls[1..])
  }

  /**
   * Interval rows are shared: after any series of calls, the row for every
   * interval length some call asked for exists exactly once.
   */
  lemma {:induction false} IntervalRowsStayShared(st: Store, calls: seq<IntervalCall>, k: nat)
    requires st.Valid()
    requires k < |calls| && IntervalEvery(calls[k].periodicity).Some?
    ensures multiset(RunEveryDay(st, calls).intervals)[IntervalSchedule(IntervalEvery(calls[k].periodicity).value, Days)] == 1
    decreases k
  {
    var row := IntervalSchedule(IntervalEvery(calls[k].periodicity).value, Days);
    var c := calls[0];
    var next := st.SetScheduleEveryDay(c.habitId, c.periodicity, c.now).store;
    var end := RunEveryDay(st, calls);
    assert end == RunEveryDay(next, calls[1..]);
    if k == 0 {
      assert row in next.intervals && next.intervals <= end.intervals;
      NoDuplicatesCount(end.intervals, row);
    } else {
      assert calls[1..][k - 1] == calls[k];
      IntervalRowsStayShared(next, calls[1..], k - 1);
    }
  }

  /**
   * Once an interval call has created its task, every later interval call
   * fails on the name clash and adds no task, whatever habit or interval it
   * is for.
   */
  lemma SecondIntervalCallFails(st: Store, a: nat, p: string, now: int, b: nat, q: string, later: int)
    requires st.Valid()
    requires st.SetScheduleEveryDay(a, p, now).outcome.Pass?
    requires IntervalEvery(q).Some?
    ensures var first := st.SetScheduleEveryDay(a, p, now).store;
      var second := first.SetScheduleEveryDay(b, q, later);
      second.outcome == Fail(NameTaken) && second.store.tasks == first.tasks
  {
  }

  /** Under unique names, a lookup that some task satisfies is satisfied by exactly one. */
  lemma {:induction false} MatchCountUnderUniqueNames(tasks: seq<PeriodicTask>, q: TaskLookup)
    requires UniqueNames(tasks)
    requires exists t :: t in tasks && Matches(t, q)
    ensures MatchCount(tasks, q) == 1
  {
    var rest := tasks[1..];
    assert UniqueNames(rest) by {
      forall i, j | 0 <= i < j < |rest| ensures rest[i].name != rest[j].name {
        assert rest[i] == tasks[i + 1] && rest[j] == tasks[j + 1];
      }
    }
    if Matches(tasks[0], q) {
      forall t | t in rest ensures !Matches(t, q) {
        var j :| 0 <= j < |rest| && rest[j] == t;
        assert tasks[j + 1] == t;
      }
    } else {
      var t :| t in tasks && Matches(t, q);
      assert t in rest;
      MatchCountUnderUniqueNames(rest, q);
    }
  }

  /**
   * Crontab paths are idempotent per habit: once a call has succeeded,
   * repeating it changes nothing and reports success, and exactly one task
   * matches the habit's lookup.
   */
  lemma CronCallIdempotent(st: Store, habitId: nat, tab: Crontab)
    requires st.Valid()
    requires st.ScheduleOnCrontab(habitId, tab).outcome.Pass?
    ensures var first := st.ScheduleOnCrontab(habitId, tab).store;
      && first.ScheduleOnCrontab(habitId, tab) == Step(Pass, first)
      && MatchCount(first.tasks, CronReminder(habitId, tab)) == 1
  {
    var first := st.ScheduleOnCrontab(habitId, tab).store;
    assert first.GetOrCreateCrontab(tab) == first;
    MatchCountUnderUniqueNames(first.tasks, CronReminder(habitId, tab));
  }

  /** A habit with no crontab task yet is always registered, whatever other habits hold. */
  lemma FirstCronCallSucceeds(st: Store, habitId: nat, tab: Crontab)
    requires st.Valid() && !st.NameInUse(CronTaskName(habitId))
    ensures var r := st.ScheduleOnCrontab(habitId, tab);
      r.outcome == Pass && r.store.tasks == st.tasks + [Inserted(CronReminder(habitId, tab))]
  {
  }

  /** Two different habits can both be registered on crontab paths, one after the other. */
  lemma DistinctHabitsBothScheduled(st: Store, a: nat, tabA: Crontab, b: nat, tabB: Crontab)
    requires st.Valid() && a != b
    requires !st.NameInUse(CronTaskName(a)) && !st.NameInUse(CronTaskName(b))
    ensures var first := st.ScheduleOnCrontab(a, tabA);
      var second := first.store.ScheduleOnCrontab(b, tabB);
      first.outcome == Pass && second.outcome == Pass
      && second.store.tasks == st.tasks + [Inserted(CronReminder(a, tabA)), Inserted(CronReminder(b, tabB))]
  {
    var first := st.ScheduleOnCrontab(a, tabA);
    CronTaskNameSeparatesHabits(a, b);
    FirstCronCallSucceeds(first.store, b, tabB);
  }

  /**
   * Every lookup field is part of the match, so moving a habit to another
   * crontab misses its existing task, and the create that follows clashes on
   * the habit's own task name: the call fails and the task keeps its old
   * crontab (the new row is still created).
   */
  lemma CronRescheduleFails(st: Store, habitId: nat, tab1: Crontab, tab2: Crontab)
    requires st.Valid() && tab1 != tab2
    requires st.ScheduleOnCrontab(habitId, tab1).outcome.Pass?
    ensures var first := st.ScheduleOnCrontab(habitId, tab1).store;
      var second := first.ScheduleOnCrontab(habitId, tab2);
      && second.outcome == Fail(NameTaken)
      && second.store.tasks == first.tasks
      && tab2 in second.store.crontabs
  {
  }

  /** The weekday path as written: changing a habit from one weekday to another fails. */
  lemma WeekdayChangeFails(st: Store, habitId: nat, p1: string, p2: string)
    requires st.Valid() && NeedToSend(p1) != NeedToSend(p2)
    requires st.SetScheduleEveryWeekday(habitId, p1).outcome.Pass?
    ensures var first := st.SetScheduleEveryWeekday(habitId, p1).store;
      first.SetScheduleEveryWeekday(habitId, p2).outcome == Fail(NameTaken)
  {
  }
}
