/**
 * The habit record of habits/models.py: the fourteen periodicity labels, the
 * choices list of the `periodicity` field, its length and default, the
 * nullable owner and the reminder text produced by `Habit.__str__`.
 */
module Models {
  import opened Wrappers
  import opened Sequences

  // Stored values of `Habit.periodicity`.
  const EveryDay: string := "Ежедневно"
  const EveryWeek: string := "Еженедельно"
  const EveryTwoDays: string := "Каждые 2 дня"
  const EveryThreeDays: string := "Каждые 3 дня"
  const EveryFourDays: string := "Каждые 4 дня"
  const Monday: string := "По понедельникам"
  const Tuesday: string := "По вторникам"
  const Wednesday: string := "По средам"
  const Thursday: string := "По четвергам"
  const Friday: string := "По пятницам"
  const Saturday: string := "По субботам"
  const Sunday: string := "По воскресеньям"
  const TwoTimesInDay: string := "2 раза в день"
  const ThreeTimesInDay: string := "3 раза в день"

  /** The fourteen labels in the order they are declared on the model. */
  const Periodicities: seq<string> :=
    [EveryDay, EveryWeek, EveryTwoDays, EveryThreeDays, EveryFourDays,
     Monday, Tuesday, Wednesday, Thursday, Friday, Saturday, Sunday,
     TwoTimesInDay, ThreeTimesInDay]

  /**
   * `PERIODICITY_IN_CHOICES`: pairs of (stored value, display label). The
   * entry for Wednesday carries the label of Thursday, as the model has it.
   */
  const PeriodicityChoices: seq<(string, string)> :=
    [(EveryWeek, "Еженедельно"),
     (EveryDay, "Ежедневно"),
     (EveryTwoDays, "Каждые 2 дня"),
     (EveryThreeDays, "Каждые 3 дня"),
     (EveryFourDays, "Каждые 4 дня"),
     (Monday, "По понедельникам"),
     (Tuesday, "По вторникам"),
     (Wednesday, "По четвергам"),
     (Thursday, "По четвергам"),
     (Friday, "По пятницам"),
     (Saturday, "По субботам"),
     (Sunday, "По воскресеньям"),
     (TwoTimesInDay, "2 раза в день"),
     (ThreeTimesInDay, "3 раза в день")]

  /** `max_length` of the `periodicity` column. */
  const PeriodicityMaxLength: nat := 16

  /** The text that `Habit.__str__` puts before the action. */
  const ReminderPrefix: string := "Сегодня нужно "

  /** The part of a user record the reminder needs: the Telegram chat id, which may be null. */
  datatype User = User(telegramChatId: Option<string>)

  /**
   * The fields of a habit that the scheduling core reads. The owner is a
   * nullable foreign key (set to null when the user is deleted).
   */
  datatype Habit = Habit(owner: Option<User>, action: string, periodicity: string, isActive: bool)

  /** The stored values of a choices list, in order. */
  function StoredValues(choices: seq<(string, string)>): (values: seq<string>)
    ensures |values| == |choices|
    ensures forall i :: 0 <= i < |choices| ==> values[i] == choices[i].0
  {
    seq(|choices|, i requires 0 <= i < |choices| => choices[i].0)
  }

  /**
   * The display label Django shows for a stored value: the choices are read
   * into a dictionary, so the last choice with that stored value wins, and a
   * value outside the choices is shown as itself.
   */
  function DisplayLabel(choices: seq<(string, string)>, value: string): (shown: string)
    ensures value !in StoredValues(choices) ==> shown == value
    ensures value in StoredValues(choices) ==> (value, shown) in choices
  {
    if choices == [] then value
    else if choices[|choices| - 1].0 == value then choices[|choices| - 1].1
    else
      var init := choices[..|choices| - 1];
      assert value in StoredValues(choices) ==> value in StoredValues(init) by {
        if value in StoredValues(choices) {
          var k :| 0 <= k < |choices| && StoredValues(choices)[k] == value;
          assert StoredValues(init)[k] == value;
        }
      }
      DisplayLabel(init, value)
  }

  /**
   * A habit as created with an optional periodicity and an optional
   * activity flag: the column defaults are `EveryDay` and active.
   */
  function NewHabit(owner: Option<User>, action: string, periodicity: Option<string>, isActive: Option<bool>): (h: Habit)
    ensures h.owner == owner && h.action == action
    ensures periodicity.None? ==> h.periodicity == EveryDay
    ensures periodicity.Some? ==> h.periodicity == periodicity.value
    ensures (periodicity.None? || periodicity.value in Periodicities) ==> h.periodicity in Periodicities
    ensures h.isActive <==> isActive != Some(false)
  {
    Habit(owner, action,
      if periodicity.Some? then periodicity.value else EveryDay,
      if isActive.Some? then isActive.value else true)
  }

  /**
   * `Habit.__str__`: the reminder text. The text is the prefix, the action
   * unchanged, and a closing full stop, so the action can be read back.
   */
  function HabitStr(h: Habit): (s: string)
    ensures |s| == |ReminderPrefix| + |h.action| + 1
    ensures s[..|ReminderPrefix|] == ReminderPrefix
    ensures s[|ReminderPrefix|..|s| - 1] == h.action
    ensures s[|s| - 1] == '.'
  {
    ReminderPrefix + h.action + "."
  }

  /** Two habits give the same reminder text exactly when their actions are equal. */
  lemma HabitStrDeterminesAction(a: Habit, b: Habit)
    ensures HabitStr(a) == HabitStr(b) <==> a.action == b.action
  {
  }

  /** The two texts the habit tests expect from `str(habit)`. */
  lemma HabitStrExamples(owner: Option<User>, p: string, active: bool)
    ensures HabitStr(Habit(owner, "почитать", p, active)) == "Сегодня нужно почитать."
    ensures HabitStr(Habit(owner, "Полить цветы", p, active)) == "Сегодня нужно Полить цветы."
  {
  }

  /** The fourteen periodicity labels are pairwise distinct. */
  lemma PeriodicitiesDistinct()
    ensures |Periodicities| == 14
    ensures forall i, j :: 0 <= i < j < |Periodicities| ==> Periodicities[i] != Periodicities[j]
  {
  }

  /** Every label fits the column; the longest, Monday's, fills it exactly. */
  lemma PeriodicitiesFitColumn()
    ensures forall p :: p in Periodicities ==> |p| <= PeriodicityMaxLength
    ensures |Monday| == PeriodicityMaxLength
  {
  }

  /** The fourteen labels in the order the choices list stores them: daily and weekly swapped. */
  const ChoiceOrder: seq<string> :=
    [EveryWeek, EveryDay, EveryTwoDays, EveryThreeDays, EveryFourDays,
     Monday, Tuesday, Wednesday, Thursday, Friday, Saturday, Sunday,
     TwoTimesInDay, ThreeTimesInDay]

  /** The labels in choices order are pairwise distinct. */
  lemma ChoiceOrderDistinct()
    ensures NoDuplicates(ChoiceOrder)
  {
  }

  /** The stored values of the choices list are the labels in choices order, with no value twice. */
  lemma StoredValuesOfChoices()
    ensures StoredValues(PeriodicityChoices) == ChoiceOrder
    ensures NoDuplicates(StoredValues(PeriodicityChoices))
  {
    var values := StoredValues(PeriodicityChoices);
    forall i | 0 <= i < |values| ensures values[i] == ChoiceOrder[i] {
      assert values[i] == PeriodicityChoices[i].0;
    }
    ChoiceOrderDistinct();
  }

  /** The stored values of the choices list are the fourteen labels, each exactly once. */
  lemma ChoicesStoreEachPeriodicityOnce()
    ensures forall v :: v in StoredValues(PeriodicityChoices) <==> v in Periodicities
    ensures forall p :: p in Periodicities ==> multiset(StoredValues(PeriodicityChoices))[p] == 1
  {
    var values := StoredValues(PeriodicityChoices);
    StoredValuesOfChoices();
    forall p | p in Periodicities ensures multiset(values)[p] == 1 {
      NoDuplicatesCount(values, p);
    }
  }

  /** In a choices list whose stored values are distinct, each choice's value shows its own label. */
  lemma DisplayLabelOfChoice(choices: seq<(string, string)>, value: string, shown: string)
    requires NoDuplicates(StoredValues(choices))
    requires (value, shown) in choices
    ensures DisplayLabel(choices, value) == shown
  {
  }

  /**
   * Every display label equals its stored value except Wednesday's, which
   * reads as Thursday; the stored value of that choice is still Wednesday.
   */
  lemma DisplayLabelWednesdayQuirk()
    ensures forall p :: p in Periodicities && p != Wednesday ==> DisplayLabel(PeriodicityChoices, p) == p
    ensures DisplayLabel(PeriodicityChoices, Wednesday) == Thursday
    ensures (Wednesday, Thursday) in PeriodicityChoices && (Wednesday, Wednesday) !in PeriodicityChoices
  {
    StoredValuesOfChoices();
    forall p | p in Periodicities && p != Wednesday
      ensures DisplayLabel(PeriodicityChoices, p) == p
    {
      assert (p, p) in PeriodicityChoices;
      DisplayLabelOfChoice(PeriodicityChoices, p, p);
    }
    assert PeriodicityChoices[7] == (Wednesday, Thursday);
    DisplayLabelOfChoice(PeriodicityChoices, Wednesday, Thursday);
  }
}
