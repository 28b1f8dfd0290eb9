# Habit reminder scheduling, modelled in Dafny

This project models the reminder-scheduling core of a habit tracker. A
habit has a periodicity, one of fourteen fixed Russian labels. Each
label is turned into a recurring schedule in a periodic-task registry,
either an interval of days or a crontab row. When a schedule fires, a
job looks the habit up and sends "Сегодня нужно {action}." to the
owner's Telegram chat.

Modules:

- `Wrappers` (wrappers.dfy) defines `Option`, `Result` and `Outcome`.
- `Sequences` (sequences.dfy) holds facts about duplicate-free sequences.
- `Models` (models.dfy) covers habits/models.py. It holds the fourteen labels, the choices list with its Wednesday label quirk, the column's length and default, the nullable owner, and `Habit.__str__`.
- `Services` (services.dfy) covers the pure branching of habits/services.py. That is `need_to_send`, the interval-length and hour-list selection, and the crontab rows the two cron paths ask for. `Interpret` is a modelling convenience, not source code. The habit views choose which `set_schedule_*` function runs, and they are not part of this model.
- `Registry` (registry.dfy) covers the state-changing part of habits/services.py. `Store` is the registry as a value, with one function per registry call and one per `set_schedule_*` function. `PeriodicTaskRegistry` holds the same state in sequence fields, and each of its methods is proved to match the corresponding function.
- `RegistryProperties` (registry_properties.dfy) covers what repeated calls do. Interval rows are shared. The interval task name clashes. Crontab calls are idempotent per habit. Moving a habit to another crontab fails.
- `Tasks` (tasks.dfy) covers habits/tasks.py. `ReminderBot` reads a habit map and appends to an outbox.

The registry enforces what the periodic-task library enforces: task names
are unique. A create under a name already in use fails with `NameTaken`.
The code evidently means to keep one reminder task per habit and to update
that task in place when the habit is rescheduled. The model follows the
code as written, and three behaviours differ from that aim:

- Every interval task is created under the one name "Habit Reminder Bot". After the first one succeeds, every later interval call fails and adds no task (`SecondIntervalCallFails`). It does not add a second task with the same name.
- The crontab paths pass every field of the task as a lookup and give no defaults. Repeating a call therefore changes nothing (`CronCallIdempotent`). Moving a habit to another crontab misses its existing task, and the create that follows clashes on the habit's own name (`CronRescheduleFails`, `WeekdayChangeFails`). The task is not updated in place.
- For a habit whose owner has no Telegram chat id, the send call is still made, with a null chat id. Only a missing owner stops the job.

A failed create still leaves behind the schedule row that the
get-or-create before it made. This is because the two registry calls are
not in one transaction.

## Model

| member | source | states |
|---|---|---|
| Models.PeriodicitiesDistinct | habits/models.py:6-19 | the fourteen periodicity labels are pairwise distinct |
| Models.PeriodicitiesFitColumn | habits/models.py:80-86 | every label fits `max_length=16`; Monday's label, "По понедельникам", is exactly 16 characters |
| Models.ChoiceOrderDistinct | habits/models.py:21-36 | the fourteen labels in the order the choices list stores them are pairwise distinct |
| Models.StoredValuesOfChoices | habits/models.py:21-36 | the stored values of the choices list are the fourteen labels in that order (weekly before daily), with no value twice |
| Models.ChoicesStoreEachPeriodicityOnce | habits/models.py:21-36 | a value is stored in the choices list iff it is one of the fourteen labels, and each label occurs exactly once |
| Models.DisplayLabel | habits/models.py:21-36 | a value outside the choices is shown as itself; a stored value is shown with the label of a choice pairing it with that value (the last such choice) |
| Models.DisplayLabelWednesdayQuirk | habits/models.py:29 | every label displays as itself except Wednesday, which displays as Thursday's label while its stored value stays Wednesday |
| Models.NewHabit | habits/models.py:80-106 | a habit created without a periodicity gets "Ежедневно" and a given one is kept, so the result is a valid label whenever the input was; it is active unless created with `is_active=False` |
| Models.HabitStr | habits/models.py:108-109 | the reminder text is the prefix "Сегодня нужно ", the action unchanged and a final '.', so the action can be read back |
| Models.HabitStrDeterminesAction | habits/models.py:108-109 | two habits render to the same text iff their actions are equal |
| Models.HabitStrExamples | habits/tests.py:93 | "почитать" renders as "Сегодня нужно почитать." and "Полить цветы" as "Сегодня нужно Полить цветы." (the test at line 127 too) |
| Services.NeedToSend | habits/services.py:10-26 | the result is one digit '0'..'6', and it is not "0" iff the label is Monday to Saturday |
| Services.NeedToSendNumbersTheWeek | habits/services.py:13-26 | the k-th label of Sunday..Saturday gets digit k (Sunday '0', Monday '1', …, Saturday '6') |
| Services.NeedToSendSeparatesWeekdays | habits/services.py:13-24 | two weekday labels get the same digit iff they are the same label |
| Services.PeriodicityFamiliesPartition | habits/models.py:6-19 | the five interval labels, the two times-a-day labels and the seven weekday labels split the fourteen labels without overlap |
| Services.IntervalEvery | habits/services.py:39-52 | an interval length is selected iff the label is one of the five interval labels, and it lies between 1 and 7 |
| Services.IntervalEveryTable | habits/services.py:39-52 | "Ежедневно", "Еженедельно", "Каждые 2/3/4 дня" select 1, 7, 2, 3, 4 days; different labels select different lengths |
| Services.FewTimesHours | habits/services.py:71-75 | "2 раза в день" selects "9,17" and "3 раза в день" selects "8,14,19"; no other label selects hours |
| Services.FewTimesCrontab | habits/services.py:77-84 | the crontab has minute "0", the selected hours, "*" for day of month, month and day of week, and zone Europe/Moscow; no row for other labels |
| Services.WeekdayCrontab | habits/services.py:97-106 | the crontab has minute "0", hour "8", day of week from `need_to_send`, "*" elsewhere and zone Europe/Moscow, for every label |
| Services.Interpret | habits/services.py:37-115 | modelling convenience: a label gets a schedule iff it is one of the fourteen; an interval label gets its `IntervalEvery` length in days, a times-a-day label its `FewTimesCrontab` row, a weekday label its 08:00 `WeekdayCrontab` row |
| Services.InterpretSeparatesPeriodicities | habits/services.py:37-115 | two of the fourteen labels get the same schedule iff they are the same label |
| Registry.Inserted | habits/services.py:86-93 | the task inserted by update-or-create satisfies its own lookup and has no expiry |
| Registry.Decimal | habits/services.py:87 | the decimal text of an id is non-empty, all digits, and one character long iff the id is below 10 |
| Registry.DecimalInjective | habits/services.py:87 | different ids have different decimal texts |
| Registry.CronTaskName | habits/services.py:87 | the name is "habit_", the id's decimal text, then "_crontab" |
| Registry.CronTaskNameSeparatesHabits | habits/services.py:87 | two habits get the same crontab task name iff they are the same habit, and no crontab name is the interval task name |
| Registry.IntervalReminder | habits/services.py:59-66 | the interval task is named "Habit Reminder Bot", runs the reminder job with args `[habit_id]` on the given row, is enabled, not one-off, and expires one day after `now` |
| Registry.CronReminder | habits/services.py:86-93 | the crontab lookup is (`habit_{id}_crontab`, the row, the reminder job, `[habit_id]`, enabled, not one-off) |
| Registry.Store.GetOrCreateInterval | habits/services.py:54-57 | afterwards exactly one `(every, days)` row exists; old rows are kept and at most one is added; tasks and crontabs do not change; the invariant holds |
| Registry.Store.GetOrCreateCrontab | habits/services.py:77-84 | afterwards exactly one row equal to the crontab exists; old rows are kept and at most one is added; nothing else changes |
| Registry.Store.Create | habits/services.py:59-66 | create succeeds iff the name is free and then appends exactly that task; otherwise it fails with `NameTaken` and changes nothing |
| Registry.Store.UpdateOrCreate | habits/services.py:86-93 | a task matching the whole lookup leaves the registry unchanged; otherwise the result is a create of the lookup's task; on success some task matches |
| Registry.Store.SetScheduleEveryDay | habits/services.py:37-66 | an unmatched label fails with nothing changed; otherwise the row is got or created, and the call succeeds iff the interval task name is free, appending exactly the reminder task; existing tasks are untouched |
| Registry.Store.ScheduleOnCrontab | habits/services.py:77-93 | the row is got or created; tasks are unchanged or gain exactly the habit's task; on success a task matches the lookup; on failure the error is `NameTaken` |
| Registry.Store.SetScheduleAFewTime | habits/services.py:69-93 | an unmatched label fails with nothing changed; otherwise this is the crontab path on the selected row |
| Registry.Store.SetScheduleEveryWeekday | habits/services.py:96-115 | always the crontab path on the 08:00 weekday row; it never reports an unmatched label |
| Registry.PeriodicTaskRegistry.GetOrCreateInterval | habits/services.py:54-57 | returns the `(every, days)` row, which is then present; the new state is `Store.GetOrCreateInterval` of the old |
| Registry.PeriodicTaskRegistry.GetOrCreateCrontab | habits/services.py:77-84 | returns the crontab row, which is then present; the new state is `Store.GetOrCreateCrontab` of the old |
| Registry.PeriodicTaskRegistry.Create | habits/services.py:59-66 | on success the tasks are the old tasks plus this one, on failure unchanged; state and outcome are those of `Store.Create` |
| Registry.PeriodicTaskRegistry.UpdateOrCreate | habits/services.py:86-93 | state and outcome are those of `Store.UpdateOrCreate`, and the invariant is kept |
| Registry.PeriodicTaskRegistry.SetScheduleEveryDay | habits/services.py:37-66 | state and outcome are those of `Store.SetScheduleEveryDay`; on success exactly one task is added after the unchanged old ones |
| Registry.PeriodicTaskRegistry.SetScheduleAFewTime | habits/services.py:69-93 | state and outcome are those of `Store.SetScheduleAFewTime` |
| Registry.PeriodicTaskRegistry.SetScheduleEveryWeekday | habits/services.py:96-115 | state and outcome are those of `Store.SetScheduleEveryWeekday` |
| RegistryProperties.RunEveryDay | habits/services.py:37-66 | a series of interval calls keeps the invariant and never removes an interval row |
| RegistryProperties.IntervalRowsStayShared | habits/services.py:54-57 | after any series of interval calls, the row for each length some call asked for exists exactly once |
| RegistryProperties.SecondIntervalCallFails | habits/services.py:59-66 | once an interval call has succeeded, any later interval call, for any habit, fails with `NameTaken` and adds no task |
| RegistryProperties.MatchCountUnderUniqueNames | habits/services.py:86-93 | with unique task names, a lookup that some task satisfies is satisfied by exactly one task |
| RegistryProperties.CronCallIdempotent | habits/services.py:86-93 | after a successful crontab call, repeating it succeeds and changes nothing, and exactly one task matches the habit's lookup (likewise lines 108-115) |
| RegistryProperties.FirstCronCallSucceeds | habits/services.py:86-93 | a habit without a crontab task is registered, by appending exactly its task |
| RegistryProperties.DistinctHabitsBothScheduled | habits/services.py:86-93 | two different habits are both registered on crontab paths, each gaining its own task |
| RegistryProperties.CronRescheduleFails | habits/services.py:108-115 | after a habit is registered on one crontab, registering it on another fails with `NameTaken`; its task is unchanged and the new row is created |
| RegistryProperties.WeekdayChangeFails | habits/services.py:96-115 | moving a habit from one weekday to a weekday with another digit fails with `NameTaken` |
| Tasks.Reminder | habits/tasks.py:9-13 | a message is produced iff the habit exists and has an owner; a missing habit gives `HabitDoesNotExist`; the text is `str(habit)` and the recipient the owner's chat id, null included |
| Tasks.ReminderCarriesAction | habits/tasks.py:13 | the sent text is the prefix, the habit's action verbatim and a final '.' |
| Tasks.RemindersSeparateActions | habits/tasks.py:13 | two reminders have the same text iff the habits' actions are equal |
| Tasks.ReminderExample | habits/tasks.py:9-13 | habit 42 "Выпить стакан воды" with chat "546194525" gives "Сегодня нужно Выпить стакан воды." to "546194525"; id 999 gives `HabitDoesNotExist` |
| Tasks.ReminderBot.SendTelegramMessage | habits/services.py:29-34 | appends exactly one (text, chat id) message to the outbox |
| Tasks.ReminderBot.SendReminderWithBot | habits/tasks.py:9-13 | a missing habit or a null owner gives an error and no message; otherwise exactly the habit's reminder is appended; only the outbox may change |

## Left out

- The HTTP request of `send_telegram_message` (URL, bot token, query parameters, ignored response, transport errors) is not modelled. Sending is an append to the outbox.
- `datetime.utcnow()` is a parameter `now`, an integer number of seconds. `timedelta(days=1)` is the addition of 86400.
- The Django ORM and django_celery_beat are replaced by the in-memory registry. Not modelled: database ids (tasks point at schedule rows by value, which is unambiguous because rows are distinct), transactions and atomicity of get-or-create, the library's bookkeeping fields and change signal on save, and the `kwargs` argument. The interval path passes `kwargs` as "{}", which is the library's default.
- Registry.Store.UpdateOrCreate: the library error for a lookup that several tasks satisfy is not modelled. With unique task names at most one task can match (`MatchCountUnderUniqueNames`).
- The JSON text of `args` is modelled as the list of habit ids it encodes. Habit ids are non-negative integers.
- Celery's `@shared_task` and concurrent job execution are left out. Dispatch is one sequential call.
- The habit views that choose which `set_schedule_*` function to call are not part of this model. `Interpret` stands in for that choice.
- Habit fields the scheduling core does not read (place, deadlines, associated habit, reward, time to complete, publicity) are not modelled. Of the user record, only the Telegram chat id is kept.
- The user views, URL routing, serializers and API tests are not part of this model.
- The timezone "Europe/Moscow" and the cron field strings are opaque values. No time arithmetic is done on them.
