/**
 * The reminder job of habits/tasks.py: look a habit up by id, render it
 * with `Habit.__str__`, and send the text to its owner's Telegram chat id.
 * The outbound message call is an append to an outbox.
 */
module Tasks {
  import opened Wrappers
  import opened Models

  /** One outbound message: the text, and the chat id it goes to (null passes through as `None`). */
  datatype Notification = Notification(text: string, chatId: Option<string>)

  /** Why the job stops before sending: no habit has the id, or the habit's owner is null. */
  datatype DispatchError = HabitDoesNotExist | OwnerIsNone

  /** The message the job sends for a habit id in a habit table, or why it sends none. */
  function Reminder(habits: map<nat, Habit>, habitId: nat): (r: Result<Notification, DispatchError>)
    ensures r.Success? <==> habitId in habits && habits[habitId].owner.Some?
    ensures r == Failure(HabitDoesNotExist) <==> habitId !in habits
    ensures r.Success? ==>
      && r.value.text == HabitStr(habits[habitId])
      && r.value.chatId == habits[habitId].owner.value.telegramChatId
  {
    if habitId !in habits then Failure(HabitDoesNotExist)
    else
      var habit := habits[habitId];
      if habit.owner.None? then Failure(OwnerIsNone)
      else Success(Notification(HabitStr(habit), habit.owner.value.telegramChatId))
  }

  /** The sent text carries the habit's action verbatim, between the fixed prefix and a full stop. */
  lemma ReminderCarriesAction(habits: map<nat, Habit>, habitId: nat)
    requires Reminder(habits, habitId).Success?
    ensures var text := Reminder(habits, habitId).value.text;
      && text[..|ReminderPrefix|] == ReminderPrefix
      && text[|ReminderPrefix|..|text| - 1] == habits[habitId].action
      && text[|text| - 1] == '.'
  {
  }

  /** Two habits with different actions never produce the same reminder text. */
  lemma RemindersSeparateActions(habits: map<nat, Habit>, a: nat, b: nat)
    requires Reminder(habits, a).Success? && Reminder(habits, b).Success?
    ensures Reminder(habits, a).value.text == Reminder(habits, b).value.text
      <==> habits[a].action == habits[b].action
  {
  }

  /** The worked example: habit 42, "Выпить стакан воды", chat "546194525". */
  lemma ReminderExample(owner: User, p: string, active: bool)
    requires owner.telegramChatId == Some("546194525")
    ensures Reminder(map[42 := Habit(Some(owner), "Выпить стакан воды", p, active)], 42)
      == Success(Notification("Сегодня нужно Выпить стакан воды.", Some("546194525")))
    ensures Reminder(map[42 := Habit(Some(owner), "Выпить стакан воды", p, active)], 999)
      == Failure(HabitDoesNotExist)
  {
    var habit := Habit(Some(owner), "Выпить стакан воды", p, active);
    assert HabitStr(habit) == "Сегодня нужно Выпить стакан воды.";
  }

  /**
   * The habit table the job reads and the messages it has sent. Only the
   * outbox is ever changed here.
   */
  class ReminderBot {
    var habits: map<nat, Habit>
    var outbox: seq<Notification>

    constructor (habits: map<nat, Habit>)
      ensures this.habits == habits && outbox == []
    {
      this.habits := habits;
      outbox := [];
    }

    /** `send_telegram_message`: one outbound message; the response is not looked at. */
    method SendTelegramMessage(text: string, chatId: Option<string>)
      modifies this`outbox
      ensures outbox == old(outbox) + [Notification(text, chatId)]
    {
      outbox := outbox + [Notification(text, chatId)];
    }

    /**
     * `send_reminder_with_bot`: exactly one message on success, none when
     * the habit is missing or has no owner; the habit table is only read.
     */
    method SendReminderWithBot(habitId: nat) returns (r: Outcome<DispatchError>)
      modifies this`outbox
      ensures habitId !in habits ==> r == Fail(HabitDoesNotExist)
      ensures habitId in habits && habits[habitId].owner.None? ==> r == Fail(OwnerIsNone)
      ensures r.Fail? ==> outbox == old(outbox)
      ensures r.Pass? ==> outbox == old(outbox) + [Reminder(habits, habitId).value]
      ensures r.Pass? <==> Reminder(habits, habitId).Success?
    {
      if habitId !in habits {
        return Fail(HabitDoesNotExist);
      }
      var habit := habits[habitId];
      if habit.owner.None? {
        return Fail(OwnerIsNone);
      }
      SendTelegramMessage(HabitStr(habit), habit.owner.value.telegramChatId);
      r := Pass;
    }
  }
}
