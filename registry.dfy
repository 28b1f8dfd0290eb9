/**
 * The periodic-task registry that the three `set_schedule_*` functions of
 * habits/services.py write to: shared interval and crontab schedule rows,
 * and named periodic tasks that point at one of them.
 *
 * `Store` is the registry as a value, with one function per registry call
 * the source makes (get-or-create of a schedule row, create of a task,
 * update-or-create of a task) and one per `set_schedule_*` function.
 * `PeriodicTaskRegistry` holds the same state in fields and changes it in
 * place; each of its methods is proved to do what the matching function
 * says.
 *
 * Task names are unique in the registry, so a create under a name already
 * in use fails (`NameTaken`) and leaves the tasks unchanged.
 */
module Registry {
  import opened Wrappers
  import opened Sequences
  import opened Services

  /** The dotted path of the reminder job every task runs. */
  const ReminderTask: string := "habits.tasks.send_reminder_with_bot"
  /** The one name every interval task is created under. */
  const IntervalTaskName: string := "Habit Reminder Bot"
  /** One day, in the unit of the clock value passed as `now` (seconds). */
  const OneDay: int := 86400

  /** The unit of an interval schedule; the source only ever uses days. */
  datatype Period = Days

  /** An interval schedule row, keyed by its two fields. */
  datatype IntervalSchedule = IntervalSchedule(every: nat, period: Period)

  /** The schedule row a task points at. */
  datatype ScheduleRef = IntervalRef(interval: IntervalSchedule) | CrontabRef(crontab: Crontab)

  /**
   * A periodic task. `args` is the list of habit ids the task's JSON
   * arguments encode; `expires` is absent unless set.
   */
  datatype PeriodicTask = PeriodicTask(
    name: string,
    schedule: ScheduleRef,
    task: string,
    args: seq<nat>,
    enabled: bool,
    oneOff: bool,
    expires: Option<int>)

  /** The lookup arguments of a task update-or-create on the crontab paths. */
  datatype TaskLookup = TaskLookup(
    name: string,
    crontab: Crontab,
    task: string,
    args: seq<nat>,
    enabled: bool,
    oneOff: bool)

  /**
   * Why a `set_schedule_*` call fails: the label selected no value (the
   * local variable was never bound), or the task's name is already used.
   */
  datatype StoreError = PeriodicityNotHandled | NameTaken

  /** What a registry call reports, and the registry after it. */
  datatype Step = Step(outcome: Outcome<StoreError>, store: Store)

  /** A task satisfies an update-or-create lookup: equal on every looked-up field. */
  predicate Matches(t: PeriodicTask, q: TaskLookup)
  {
    && t.name == q.name
    && t.schedule == CrontabRef(q.crontab)
    && t.task == q.task
    && t.args == q.args
    && t.enabled == q.enabled
    && t.oneOff == q.oneOff
  }

  /** The task an update-or-create inserts when nothing matches: the lookup's fields, no expiry. */
  function Inserted(q: TaskLookup): (t: PeriodicTask)
    ensures Matches(t, q) && t.expires.None?
  {
    PeriodicTask(q.name, CrontabRef(q.crontab), q.task, q.args, q.enabled, q.oneOff, None)
  }

  /** No two tasks share a name. */
  ghost predicate UniqueNames(tasks: seq<PeriodicTask>)
  {
    forall i, j :: 0 <= i < j < |tasks| ==> tasks[i].name != tasks[j].name
  }

  /** The number of tasks that satisfy a lookup. */
  function MatchCount(tasks: seq<PeriodicTask>, q: TaskLookup): (n: nat)
    ensures n <= |tasks|
    ensures n == 0 <==> forall t :: t in tasks ==> !Matches(t, q)
  {
    if tasks == [] then 0
    else (if Matches(tasks[0], q) then 1 else 0) + MatchCount(tasks[1..], q)
  }

  /** The decimal digit character of `d`. */
  function DigitChar(d: nat): (c: char)
    requires d < 10
    ensures '0' <= c <= '9' && c as int - '0' as int == d
  {
    ('0' as int + d) as char
  }

  /** The decimal text of a habit id, as Python's `str` writes a non-negative int. */
  function Decimal(n: nat): (s: string)
    ensures |s| >= 1 && (|s| == 1 <==> n < 10)
    ensures forall i :: 0 <= i < |s| ==> '0' <= s[i] <= '9'
  {
    if n < 10 then [DigitChar(n)] else Decimal(n / 10) + [DigitChar(n % 10)]
  }

  /** Different ids have different decimal texts. */
  lemma {:induction false} DecimalInjective(a: nat, b: nat)
    ensures Decimal(a) == Decimal(b) ==> a == b
  {
    if Decimal(a) == Decimal(b) && 10 <= a && 10 <= b {
      var s := Decimal(a);
      assert DigitChar(a % 10) == s[|s| - 1] == DigitChar(b % 10);
      assert Decimal(a / 10) == s[..|s| - 1] == Decimal(b / 10);
      DecimalInjective(a / 10, b / 10);
    }
  }

  /** The name of a habit's crontab task: `habit_{habit_id}_crontab`. */
  function CronTaskName(habitId: nat): (name: string)
    ensures |name| == |Decimal(habitId)| + 14
    ensures name[..6] == "habit_" && name[6..|name| - 8] == Decimal(habitId)
    ensures name[|name| - 8..] == "_crontab"
  {
    "habit_" + Decimal(habitId) + "_crontab"
  }

  /** Different habits have different crontab task names, and none is the interval task name. */
  lemma CronTaskNameSeparatesHabits(a: nat, b: nat)
    ensures CronTaskName(a) == CronTaskName(b) <==> a == b
    ensures CronTaskName(a) != IntervalTaskName
  {
    DecimalInjective(a, b);
    assert CronTaskName(a)[0] != IntervalTaskName[0];
  }

  /** The task `set_schedule_every_day` creates for a habit on an interval schedule row. */
  function IntervalReminder(habitId: nat, schedule: IntervalSchedule, now: int): (t: PeriodicTask)
    ensures t.name == IntervalTaskName && t.task == ReminderTask && t.args == [habitId]
    ensures t.schedule == IntervalRef(schedule)
    ensures t.enabled && !t.oneOff && t.expires == Some(now + OneDay)
  {
    PeriodicTask(IntervalTaskName, IntervalRef(schedule), ReminderTask, [habitId], true, false, Some(now + OneDay))
  }

  /** The lookup both crontab paths update-or-create with. */
  function CronReminder(habitId: nat, tab: Crontab): (q: TaskLookup)
    ensures q.name == CronTaskName(habitId) && q.crontab == tab && q.task == ReminderTask
    ensures q.args == [habitId] && q.enabled && !q.oneOff
  {
    TaskLookup(CronTaskName(habitId), tab, ReminderTask, [habitId], true, false)
  }

  /** The registry's rows. */
  datatype Store = Store(intervals: seq<IntervalSchedule>, crontabs: seq<Crontab>, tasks: seq<PeriodicTask>)
  {
    /** The registry invariant: schedule rows are distinct, task names unique, every task's row exists. */
    ghost predicate Valid()
    {
      && NoDuplicates(intervals)
      && NoDuplicates(crontabs)
      && UniqueNames(tasks)
      && forall t :: t in tasks ==> HasRow(t.schedule)
    }

    /** The schedule row a task points at is in the registry. */
    predicate HasRow(r: ScheduleRef)
    {
      match r
      case IntervalRef(s) => s in intervals
      case CrontabRef(c) => c in crontabs
    }

    /** Some task has this name. */
    predicate NameInUse(name: string)
    {
      exists t :: t in tasks && t.name == name
    }

    /** Get-or-create of an interval row keyed by `(every, days)`: afterwards exactly one such row exists. */
    function GetOrCreateInterval(every: nat): (st: Store)
      requires Valid()
      ensures st.Valid()
      ensures multiset(st.intervals)[IntervalSchedule(every, Days)] == 1
      ensures intervals <= st.intervals && |st.intervals| <= |intervals| + 1
      ensures st.crontabs == crontabs && st.tasks == tasks
    {
      var row := IntervalSchedule(every, Days);
      AddIfAbsent(intervals, row);
      this.(intervals := if row in intervals then intervals else intervals + [row])
    }

    /** Get-or-create of a crontab row keyed by all its fields: afterwards exactly one such row exists. */
    function GetOrCreateCrontab(tab: Crontab): (st: Store)
      requires Valid()
      ensures st.Valid()
      ensures multiset(st.crontabs)[tab] == 1
      ensures crontabs <= st.crontabs && |st.crontabs| <= |crontabs| + 1
      ensures st.intervals == intervals && st.tasks == tasks
    {
      AddIfAbsent(crontabs, tab);
      this.(crontabs := if tab in crontabs then crontabs else crontabs + [tab])
    }

    /** Create of a task: appended if its name is free, refused with `NameTaken` otherwise. */
    function Create(t: PeriodicTask): (r: Step)
      requires Valid()
      ensures r.outcome.Pass? <==> !NameInUse(t.name)
      ensures r.outcome.Pass? ==> r.store == this.(tasks := tasks + [t])
      ensures r.outcome.Fail? ==> r.outcome.error == NameTaken && r.store == this
      ensures HasRow(t.schedule) ==> r.store.Valid()
    {
      if NameInUse(t.name) then Step(Fail(NameTaken), this)
      else Step(Pass, this.(tasks := tasks + [t]))
    }

    /**
     * Update-or-create of a task with every field a lookup and no defaults:
     * a task that matches the whole lookup is left as it is; otherwise the
     * lookup's task is created, which fails if its name is in use.
     */
    function UpdateOrCreate(q: TaskLookup): (r: Step)
      requires Valid()
      ensures r.store.intervals == intervals && r.store.crontabs == crontabs
      ensures (exists t :: t in tasks && Matches(t, q)) ==> r == Step(Pass, this)
      ensures (forall t :: t in tasks ==> !Matches(t, q)) ==>
        r == Create(Inserted(q))
      ensures r.outcome.Pass? ==> exists t :: t in r.store.tasks && Matches(t, q)
      ensures q.crontab in crontabs ==> r.store.Valid()
    {
      if exists t :: t in tasks && Matches(t, q) then Step(Pass, this)
      else Create(Inserted(q))
    }

    /**
     * `set_schedule_every_day`: select the interval length, get or create
     * its shared row, then create the habit's task under the fixed interval
     * task name, expiring one day after `now`.
     */
    function SetScheduleEveryDay(habitId: nat, periodicity: string, now: int): (r: Step)
      requires Valid()
      ensures r.store.Valid()
      ensures IntervalEvery(periodicity).None? ==> r == Step(Fail(PeriodicityNotHandled), this)
      ensures IntervalEvery(periodicity).Some? ==>
        var row := IntervalSchedule(IntervalEvery(periodicity).value, Days);
        && r.store.intervals == GetOrCreateInterval(row.every).intervals
        && r.store.crontabs == crontabs
        && (r.outcome.Pass? <==> !NameInUse(IntervalTaskName))
        && (r.outcome.Pass? ==> r.store.tasks == tasks + [IntervalReminder(habitId, row, now)])
        && (r.outcome.Fail? ==> r.outcome.error == NameTaken && r.store.tasks == tasks)
    {
      match IntervalEvery(periodicity)
      case None => Step(Fail(PeriodicityNotHandled), this)
      case Some(every) =>
        var st := GetOrCreateInterval(every);
        st.Create(IntervalReminder(habitId, IntervalSchedule(every, Days), now))
    }

    /** The shared tail of both crontab paths: get or create the row, then update or create the habit's task. */
    function ScheduleOnCrontab(habitId: nat, tab: Crontab): (r: Step)
      requires Valid()
      ensures r.store.Valid()
      ensures r.store.intervals == intervals && r.store.crontabs == GetOrCreateCrontab(tab).crontabs
      ensures r.store.tasks == tasks || r.store.tasks == tasks + [Inserted(CronReminder(habitId, tab))]
      ensures r.outcome.Pass? ==> exists t :: t in r.store.tasks && Matches(t, CronReminder(habitId, tab))
      ensures r.outcome.Fail? ==> r.outcome.error == NameTaken && r.store.tasks == tasks
    {
      GetOrCreateCrontab(tab).UpdateOrCreate(CronReminder(habitId, tab))
    }

    /**
     * `set_schedule_a_few_time`: select the hour list and register the
     * habit's task on the matching crontab row.
     */
    function SetScheduleAFewTime(habitId: nat, periodicity: string): (r: Step)
      requires Valid()
      ensures r.store.Valid()
      ensures FewTimesCrontab(periodicity).None? ==> r == Step(Fail(PeriodicityNotHandled), this)
      ensures FewTimesCrontab(periodicity).Some? ==> r == ScheduleOnCrontab(habitId, FewTimesCrontab(periodicity).value)
    {
      match FewTimesCrontab(periodicity)
      case None => Step(Fail(PeriodicityNotHandled), this)
      case Some(tab) => ScheduleOnCrontab(habitId, tab)
    }

    /**
     * `set_schedule_every_weekday`: register the habit's task at 08:00 on
     * the day `need_to_send` gives; this path never rejects a label.
     */
    function SetScheduleEveryWeekday(habitId: nat, periodicity: string): (r: Step)
      requires Valid()
      ensures r.store.Valid()
      ensures r == ScheduleOnCrontab(habitId, WeekdayCrontab(periodicity))
      ensures r.outcome != Fail(PeriodicityNotHandled)
    {
      ScheduleOnCrontab(habitId, WeekdayCrontab(periodicity))
    }
  }

  /**
   * The registry as mutable state: the three `set_schedule_*` functions
   * and the registry calls they make, as methods that change these fields
   * in place.
   */
  class PeriodicTaskRegistry {
    var intervals: seq<IntervalSchedule>
    var crontabs: seq<Crontab>
    var tasks: seq<PeriodicTask>

    /** The registry's rows as a value. */
    function State(): Store
      reads this
    {
      Store(intervals, crontabs, tasks)
    }

    ghost predicate Valid()
      reads this
    {
      State().Valid()
    }

    /** An empty registry. */
    constructor ()
      ensures Valid() && State() == Store([], [], [])
    {
      intervals, crontabs, tasks := [], [], [];
    }

    /** Get the interval row `(every, days)`, creating it if absent. */
    method GetOrCreateInterval(every: nat) returns (row: IntervalSchedule)
      requires Valid()
      modifies this
      ensures Valid()
      ensures row == IntervalSchedule(every, Days) && State().HasRow(IntervalRef(row))
      ensures State() == old(State()).GetOrCreateInterval(every)
    {
      row := IntervalSchedule(every, Days);
      if row !in intervals {
        intervals := intervals + [row];
      }
    }

    /** Get the crontab row equal to `tab`, creating it if absent. */
    method GetOrCreateCrontab(tab: Crontab) returns (row: Crontab)
      requires Valid()
      modifies this
      ensures Valid()
      ensures row == tab && State().HasRow(CrontabRef(row))
      ensures State() == old(State()).GetOrCreateCrontab(tab)
    {
      row := tab;
      if tab !in crontabs {
        crontabs := crontabs + [tab];
      }
    }

    /** Create a task; refused with `NameTaken` when its name is in use. */
    method Create(t: PeriodicTask) returns (r: Outcome<StoreError>)
      requires Valid() && State().HasRow(t.schedule)
      modifies this
      ensures Valid()
      ensures r == old(State()).Create(t).outcome && State() == old(State()).Create(t).store
      ensures r.Pass? ==> tasks == old(tasks) + [t]
      ensures r.Fail? ==> tasks == old(tasks)
    {
      if exists u :: u in tasks && u.name == t.name {
        r := Fail(NameTaken);
      } else {
        tasks := tasks + [t];
        r := Pass;
      }
    }

    /** Leave a task that matches the whole lookup as it is, or create the lookup's task. */
    method UpdateOrCreate(q: TaskLookup) returns (r: Outcome<StoreError>)
      requires Valid() && q.crontab in crontabs
      modifies this
      ensures Valid()
      ensures r == old(State()).UpdateOrCreate(q).outcome && State() == old(State()).UpdateOrCreate(q).store
    {
      if exists u :: u in tasks && Matches(u, q) {
        r := Pass;
      } else {
        r := Create(Inserted(q));
      }
    }

    /** `set_schedule_every_day` on this registry. */
    method SetScheduleEveryDay(habitId: nat, periodicity: string, now: int) returns (r: Outcome<StoreError>)
      requires Valid()
      modifies this
      ensures Valid()
      ensures r == old(State()).SetScheduleEveryDay(habitId, periodicity, now).outcome
      ensures State() == old(State()).SetScheduleEveryDay(habitId, periodicity, now).store
      ensures r.Pass? ==> |tasks| == |old(tasks)| + 1 && tasks[..|old(tasks)|] == old(tasks)
    {
      var every := IntervalEvery(periodicity);
      if every.None? {
        return Fail(PeriodicityNotHandled);
      }
      var row := GetOrCreateInterval(every.value);
      r := Create(IntervalReminder(habitId, row, now));
    }

    /** `set_schedule_a_few_time` on this registry. */
    method SetScheduleAFewTime(habitId: nat, periodicity: string) returns (r: Outcome<StoreError>)
      requires Valid()
      modifies this
      ensures Valid()
      ensures r == old(State()).SetScheduleAFewTime(habitId, periodicity).outcome
      ensures State() == old(State()).SetScheduleAFewTime(habitId, periodicity).store
    {
      var hours := FewTimesHours(periodicity);
      if hours.None? {
        return Fail(PeriodicityNotHandled);
      }
      var row := GetOrCreateCrontab(Crontab("0", hours.value, Wildcard, Wildcard, Wildcard, Moscow));
      r := UpdateOrCreate(CronReminder(habitId, row));
    }

    /** `set_schedule_every_weekday` on this registry. */
    method SetScheduleEveryWeekday(habitId: nat, periodicity: string) returns (r: Outcome<StoreError>)
      requires Valid()
      modifies this
      ensures Valid()
      ensures r == old(State()).SetScheduleEveryWeekday(habitId, periodicity).outcome
      ensures State() == old(State()).SetScheduleEveryWeekday(habitId, periodicity).store
    {
      var dayOfWeek := NeedToSend(periodicity);
      var row := GetOrCreateCrontab(Crontab("0", "8", Wildcard, Wildcard, dayOfWeek, Moscow));
      r := UpdateOrCreate(CronReminder(habitId, row));
    }
  }
}
