/** End-to-end properties of the expense-recording request: the weekly total
    it evaluates includes the expense it just stored, the worked threshold
    cases, and what a later listing of the user's expenses shows. */
module HandlerProperties {
  import opened Domain
  import opened Store
  import opened StoreProperties
  import opened Handlers

  /** After a successful insert, a failed weekly-total read ends the request
      before the limit is read, and a failed or row-less limit read ends it
      before anything is published. Neither writes a body. */
  lemma ReadFailureEndsSilently(l: Ledger, u: int, e: Expense, today: int, f: CreateFaults)
    requires !f.persist
    ensures var o := RecordExpense(l, u, e, today, f);
            var owned := e.(userId := u);
            && (f.weeklyTotal ==>
                  && o.response == Silent && o.published == []
                  && o.calls == [CreateExpenseCall(owned), GetWeeklyExpensesCall(u)])
            && (!f.weeklyTotal && (f.limit || u !in l.users) ==>
                  && o.response == Silent && o.published == []
                  && o.calls == [CreateExpenseCall(owned), GetWeeklyExpensesCall(u), GetUserWeeklyLimitCall(u)])
  {
  }

  /** When the insert and both reads succeed, the expense is written back and
      the calls after the insert are the two reads and then, only if the
      post-insert weekly total and the limit call for a notification, one
      publish of it. */
  lemma PublishesChosenNotification(l: Ledger, u: int, e: Expense, today: int, f: CreateFaults)
    requires !f.persist && !f.weeklyTotal && !f.limit && u in l.users
    ensures var o := RecordExpense(l, u, e, today, f);
            var sent := NotificationFor(u, GetWeeklyExpenses(o.ledger, u, WeekStart(today)), l.users[u].weeklyLimit);
            && o.response == ExpenseBody(e.(userId := u, id := l.nextId))
            && |o.calls| == 3 + |sent|
            && o.calls[1] == GetWeeklyExpensesCall(u) && o.calls[2] == GetUserWeeklyLimitCall(u)
            && (|sent| == 1 ==> o.calls[3] == PublishCall(sent[0]))
  {
    var owned := e.(userId := u);
    var ins := Store.CreateExpense(l, owned);
    var rest := AfterInsert(ins, u, today, f);
    var o := RecordExpense(l, u, e, today, f);
    assert o == rest.(calls := [CreateExpenseCall(owned)] + rest.calls);
    assert o.calls[1..] == rest.calls;
  }

  /** `o` published exactly the notification that `total` against `limit`
      calls for, unless the queue refused it. */
  predicate PublishedFor(o: Outcome, u: int, total: int, limit: int, refused: bool) {
    o.published == if refused then [] else NotificationFor(u, total, limit)
  }

  /** When the insert and both reads succeed, the notification the weekly
      total read and the limit call for counts as published unless the queue
      refuses it. */
  lemma PublishedUnlessRefused(l: Ledger, u: int, e: Expense, today: int, f: CreateFaults)
    requires !f.persist && !f.weeklyTotal && !f.limit && u in l.users
    ensures var o := RecordExpense(l, u, e, today, f);
            PublishedFor(o, u, GetWeeklyExpenses(o.ledger, u, WeekStart(today)), l.users[u].weeklyLimit, f.publish)
  {
  }

  /** Once the insert succeeded, the weekly total the handler reads is the
      user's total before the request plus the new amount, when the expense
      is dated in the current week. */
  lemma RecordingAddsToWeeklyTotal(l: Ledger, u: int, e: Expense, today: int, f: CreateFaults)
    requires !f.persist
    ensures var ws := WeekStart(today);
            GetWeeklyExpenses(RecordExpense(l, u, e, today, f).ledger, u, ws)
            == GetWeeklyExpenses(l, u, ws) + (if ws <= e.date < ws + 7 then e.amount else 0)
  {
    CreateAddsToWeeklyTotal(l, e.(userId := u), u, WeekStart(today));
  }

  /** When the insert and both reads succeed, the notification decision is
      taken on the user's weekly total before the request plus the new amount
      (when its date is in the current week), against the stored limit. */
  lemma RecordingEvaluatesPostInsertTotal(l: Ledger, u: int, e: Expense, today: int, f: CreateFaults)
    requires !f.persist && !f.weeklyTotal && !f.limit
    requires u in l.users
    ensures var ws := WeekStart(today);
            PublishedFor(RecordExpense(l, u, e, today, f), u,
                         GetWeeklyExpenses(l, u, ws) + (if ws <= e.date < ws + 7 then e.amount else 0),
                         l.users[u].weeklyLimit, f.publish)
  {
    var o, ws := RecordExpense(l, u, e, today, f), WeekStart(today);
    var before := GetWeeklyExpenses(l, u, ws);
    RecordingAddsToWeeklyTotal(l, u, e, today, f);
    assert GetWeeklyExpenses(o.ledger, u, ws) == before + (if ws <= e.date < ws + 7 then e.amount else 0);
    PublishedUnlessRefused(l, u, e, today, f);
  }

  /** Three requests against a weekly limit of 100, each recording an expense
      dated today: 0 + 50 publishes nothing, 30 + 55 publishes the nearing
      message with 85 of 100, 90 + 20 publishes the exceeded message with 110
      of 100. The expense is written back in each case. */
  lemma ThresholdScenarios(l: Ledger, u: int, e: Expense, today: int)
    requires u in l.users && l.users[u].weeklyLimit == 100
    requires e.date == today
    ensures var o := Handlers.CreateExpense(l, UserId(u), Accepted(e), today, CreateFaults(false, false, false, false));
            var prior := GetWeeklyExpenses(l, u, WeekStart(today));
            && o.response.ExpenseBody?
            && (prior == 0 && e.amount == 50 ==> o.published == [])
            && (prior == 30 && e.amount == 55 ==> o.published == [Notification(u, NearingLimit, 85, 100)])
            && (prior == 90 && e.amount == 20 ==> o.published == [Notification(u, ExceededLimit, 110, 100)])
  {
    var f := CreateFaults(false, false, false, false);
    assert Handlers.CreateExpense(l, UserId(u), Accepted(e), today, f) == RecordExpense(l, u, e, today, f);
    RecordingEvaluatesPostInsertTotal(l, u, e, today, f);
  }

  /** Recording an expense keeps a valid ledger valid, on every path. */
  lemma CreateHandlerKeepsValid(l: Ledger, header: HeaderValue, expense: Parse<Expense>, today: int, f: CreateFaults)
    requires Valid(l)
    ensures Valid(Handlers.CreateExpense(l, header, expense, today, f).ledger)
  {
    if header.UserId? && expense.Accepted? {
      CreateKeepsValid(l, expense.value.(userId := header.id));
    }
  }

  /** Setting a limit keeps a valid ledger valid, on every path. */
  lemma SetLimitHandlerKeepsValid(l: Ledger, header: HeaderValue, limit: Parse<int>, fault: bool)
    requires Valid(l)
    ensures Valid(Handlers.SetUserWeeklyLimit(l, header, limit, fault).ledger)
  {
  }

  /** Deleting an expense keeps a valid ledger valid, on every path. */
  lemma DeleteHandlerKeepsValid(l: Ledger, id: Parse<int>, fault: bool)
    requires Valid(l)
    ensures Valid(Handlers.DeleteExpense(l, id, fault).ledger)
  {
    if id.Accepted? {
      DeleteKeepsValid(l, id.value);
    }
  }

  /** A successful login names a stored user: on a valid ledger a user row
      carries its own id. */
  lemma AuthenticatedUserExists(l: Ledger, body: Parse<Credentials>, fault: bool,
                                passwordMatches: (string, string) -> bool)
    requires Valid(l)
    ensures var o := AuthenticateUser(l, body, fault, passwordMatches);
            o.response.UserIdBody? ==> o.response.userId in l.users
  {
  }

  /** An expense recorded for a user and then listed for that user appears in
      the listing exactly once, with the fields the request gave and the
      owner taken from the header. */
  lemma RecordThenList(l: Ledger, u: int, e: Expense, today: int, f: CreateFaults)
    requires Valid(l)
    requires !f.persist
    ensures var o := Handlers.CreateExpense(l, UserId(u), Accepted(e), today, f);
            var listed := Handlers.ListExpenses(o.ledger, UserId(u), false).response;
            && listed.ExpensesBody?
            && multiset(listed.expenses)[e.(userId := u, id := l.nextId)] == 1
  {
    CreateThenList(l, e.(userId := u), u);
  }
}
