/** The records the expense tracker passes between its handlers, its store and
    its notification publisher.

    Money is an integer number of minor units. A calendar date is an integer
    day number, day 0 being 1970-01-01 (a Thursday).
 */
module Domain {

  /** One row of the expenses table. `id` is assigned by the store when the
      row is inserted; every other field is kept as the caller gave it. */
  datatype Expense = Expense(id: int, userId: int, amount: int, date: int, category: string)

  /** One row of the users table. The password hash is opaque here: it is only
      ever handed to the password oracle of `Handlers.AuthenticateUser`. */
  datatype User = User(id: int, name: string, email: string, passwordHash: string, weeklyLimit: int)

  /** The two texts a notification can carry. */
  datatype Message = ExceededLimit | NearingLimit

  /** The wording of each message as it goes onto the queue. Neither is
      empty, which is what lets the handler use the empty text for "no
      notification". */
  function Text(m: Message): (t: string)
    ensures |t| > 0
  {
    match m
    case ExceededLimit => "You have exceeded your weekly expense limit!"
    case NearingLimit => "You are nearing your weekly expense limit!"
  }

  /** The two wordings differ, so a consumer of the queue can tell the
      messages apart by their text alone. */
  lemma TextsDiffer()
    ensures Text(ExceededLimit) != Text(NearingLimit)
  {
  }

  /** The message handed to the notification queue when a user's weekly
      spending nears or passes their limit. Its text is `Text(message)`. */
  datatype Notification = Notification(userId: int, message: Message, currentExpenses: int, limit: int)
}
