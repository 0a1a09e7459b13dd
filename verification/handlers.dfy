/** The HTTP handlers of the expense tracker, each a pure function from the
    ledger and the outcome of every external call it makes to an `Outcome`:
    the response, the ledger afterwards, the notifications the queue accepted,
    and the external calls made, in order.

    Request decoding is abstract: the `X-User-ID` header arrives already
    classified as missing, malformed or a parsed integer, and a JSON body or a
    path parameter arrives as rejected or accepted with its value. A database
    call that fails for a reason of its own (connection, driver, scan) and a
    publish the queue refuses are boolean inputs. The clock is the input
    `today`, a day number.
 */
module Handlers {
  import opened Domain
  import Store

  /** The `X-User-ID` header after `strconv.Atoi`. */
  datatype HeaderValue = Missing | Malformed | UserId(id: int)

  /** A JSON body or a path parameter after decoding. */
  datatype Parse<T> = Rejected | Accepted(value: T)

  /** The login payload. */
  datatype Credentials = Credentials(email: string, password: string)

  /** One call a handler makes to the store or to the notification publisher. */
  datatype Call =
    | CreateExpenseCall(expense: Expense)
    | ListExpensesCall(userId: int)
    | DeleteExpenseCall(expenseId: int)
    | SetUserWeeklyLimitCall(userId: int, newLimit: int)
    | GetUserWeeklyLimitCall(userId: int)
    | GetWeeklyExpensesCall(userId: int)
    | GetUserByEmailCall(email: string)
    | PublishCall(notification: Notification)

  /** What a handler writes back. `Silent` is a handler that returns without
      writing anything, which the HTTP server answers with an empty 200. */
  datatype Response =
    | Error(code: int, message: string)
    | ExpenseBody(expense: Expense)
    | ExpensesBody(expenses: seq<Expense>)
    | WeeklyLimitBody(weeklyLimit: int)
    | UserIdBody(userId: int)
    | NoContent
    | Silent

  datatype Outcome = Outcome(response: Response, ledger: Store.Ledger, published: seq<Notification>, calls: seq<Call>)

  /** Which external calls of `CreateExpense` fail on their own account. */
  datatype CreateFaults = CreateFaults(persist: bool, weeklyTotal: bool, limit: bool, publish: bool)

  /** The notification level `CreateExpense` derives from the weekly total. */
  datatype Alert = NoAlert | Nearing | Exceeded

  const Unauthorized := 401
  const BadRequest := 400
  const NotFoundStatus := 404
  const InternalServerError := 500

  const MissingUserId := "Unauthorized: missing or invalid user_id"
  const MalformedUserId := "Invalid user_id format"
  const LimitReadMissingUserId := "Unauthorized: missing or invalid user ID"
  const LimitReadMalformedUserId := "Invalid user ID format"
  const InvalidPayload := "Invalid request payload"
  const InvalidExpenseId := "Invalid expense ID"
  const CreateFailed := "Failed to create expense"
  const ListFailed := "Failed to list expenses"
  const DeleteFailed := "Failed to delete expense"
  const SetLimitFailed := "Failed to set weekly spending limit"
  const GetLimitFailed := "Failed to retrieve weekly limit"
  const UserNotFound := "User not found"
  const BadCredentials := "Invalid email or password"

  /** The HTTP status the response is sent with. A handler that writes
      nothing is answered by net/http with 200. */
  function Status(r: Response): (s: int)
    ensures r.Error? ==> s == r.code
    ensures r == NoContent ==> s == 204
    ensures r == Silent ==> s == 200
  {
    match r
    case Error(code, _) => code
    case NoContent => 204
    case _ => 200
  }

  /** Day number of the Monday that starts the week holding `today`:
      `date_trunc('week', CURRENT_DATE)`. Day 0, 1970-01-01, is a Thursday. */
  function WeekStart(today: int): (ws: int)
    ensures ws <= today < ws + 7
    ensures (ws + 3) % 7 == 0
  {
    today - (today + 3) % 7
  }

  /** `int(0.8 * float64(limit))`: 80% of the limit, truncated toward zero as
      Go's conversion does (Dafny's `/` rounds down, so a negative product is
      divided through its magnitude). Taken as exact for every limit whose magnitude is well inside float64's
      exact-integer range, where the float product lands on the correct side
      of every integer. */
  function NearingThreshold(limit: int): (t: int)
    ensures limit >= 0 ==> 5 * t <= 4 * limit < 5 * t + 5
    ensures limit < 0 ==> 5 * t - 5 < 4 * limit <= 5 * t
  {
    if limit >= 0 then 4 * limit / 5 else -((-4 * limit) / 5)
  }

  /** The notification level of a weekly total against a limit. There is no
      guard for a limit of zero or less: such a limit is compared like any
      other. The float truncation never moves the 80% boundary: the level is
      the one exact arithmetic gives. */
  function Classify(total: int, limit: int): (a: Alert)
    ensures a == Exceeded <==> total > limit
    ensures a == Nearing <==> total <= limit && 5 * total > 4 * limit
    ensures a == NoAlert <==> total <= limit && 5 * total <= 4 * limit
  {
    if total > limit then Exceeded
    else if total > NearingThreshold(limit) then Nearing
    else NoAlert
  }

  /** The notification text of each level; empty means no notification. */
  function MessageFor(a: Alert): (m: string)
    ensures |m| == 0 <==> a == NoAlert
  {
    match a
    case Exceeded => Text(ExceededLimit)
    case Nearing => Text(NearingLimit)
    case NoAlert => ""
  }

  /** The notification the classification calls for: none when no message
      is chosen, otherwise one carrying the user, the total read and the
      limit read. The handler picks a text and publishes only when it is not
      empty; `AfterInsert` decides on the level directly through this
      function instead, and `ChosenTextIsSent` shows that the two agree with
      the text `MessageFor` picks. */
  function NotificationFor(u: int, total: int, limit: int): (sent: seq<Notification>)
    ensures |sent| <= 1
    ensures |sent| == 1 <==> total > limit || 5 * total > 4 * limit
    ensures |sent| == 1 ==>
              && sent[0].userId == u && sent[0].currentExpenses == total && sent[0].limit == limit
              && sent[0].message == (if total > limit then ExceededLimit else NearingLimit)
  {
    var a := Classify(total, limit);
    if a == NoAlert then [] else [Notification(u, if a == Exceeded then ExceededLimit else NearingLimit, total, limit)]
  }

  /** The handler publishes exactly when the text it picked is not empty, and
      the notification carries that text. */
  lemma ChosenTextIsSent(u: int, total: int, limit: int)
    ensures var sent, text := NotificationFor(u, total, limit), MessageFor(Classify(total, limit));
            && (|sent| == 1 <==> |text| > 0)
            && (|sent| == 1 ==> Text(sent[0].message) == text)
  {
  }

  /** The part of `CreateExpense` after a successful insert: read the weekly
      total, then the limit, then publish the notification the two call for.
      A failed read returns without a body; a failed publish is only dropped.
      The calls listed are those made after the insert. */
  function AfterInsert(ins: Store.Inserted, u: int, today: int, f: CreateFaults): (o: Outcome)
    ensures o.ledger == ins.ledger
    ensures f.weeklyTotal ==> o == Outcome(Silent, ins.ledger, [], [GetWeeklyExpensesCall(u)])
    ensures !f.weeklyTotal && (f.limit || u !in ins.ledger.users) ==>
              o == Outcome(Silent, ins.ledger, [], [GetWeeklyExpensesCall(u), GetUserWeeklyLimitCall(u)])
    ensures o.response.ExpenseBody? <==> !f.weeklyTotal && !f.limit && u in ins.ledger.users
    ensures o.response.ExpenseBody? ==>
              var sent := NotificationFor(u, Store.GetWeeklyExpenses(ins.ledger, u, WeekStart(today)),
                                          ins.ledger.users[u].weeklyLimit);
              && o.response.expense == ins.expense
              && |o.calls| == 2 + |sent|
              && o.calls[0] == GetWeeklyExpensesCall(u) && o.calls[1] == GetUserWeeklyLimitCall(u)
              && (|sent| == 1 ==> o.calls[2] == PublishCall(sent[0]))
              && o.published == (if f.publish then [] else sent)
  {
    var afterTotal := [GetWeeklyExpensesCall(u)];
    if f.weeklyTotal then Outcome(Silent, ins.ledger, [], afterTotal)
    else
      var total := Store.GetWeeklyExpenses(ins.ledger, u, WeekStart(today));
      var afterLimit := afterTotal + [GetUserWeeklyLimitCall(u)];
      var limitRead := if f.limit then Store.Err(Store.Fault) else Store.GetUserWeeklyLimit(ins.ledger, u);
      if limitRead.Err? then Outcome(Silent, ins.ledger, [], afterLimit)
      else
        var sent := NotificationFor(u, total, limitRead.value);
        var calls := afterLimit + (if |sent| == 0 then [] else [PublishCall(sent[0])]);
        Outcome(ExpenseBody(ins.expense), ins.ledger, if f.publish then [] else sent, calls)
  }

  /** POST /api/expenses once the header named user `u` and the body decoded
      to `e`. The stored expense belongs to `u`, whatever the body said. A
      failed insert is a 500 with nothing stored. After the insert, a failed
      read of the weekly total or of the limit ends the request without a body
      and without a notification; a failed publish does not, and the stored
      expense is written back either way. */
  function RecordExpense(l: Store.Ledger, u: int, e: Expense, today: int, f: CreateFaults): (o: Outcome)
    ensures o.calls != [] && o.calls[0] == CreateExpenseCall(e.(userId := u))
    // a failed insert: 500, nothing stored, nothing else called
    ensures f.persist ==> o == Outcome(Error(InternalServerError, CreateFailed), l, [], [CreateExpenseCall(e.(userId := u))])
    // once the insert succeeded, the ledger is the one the insert left
    ensures !f.persist ==> o.ledger == Store.CreateExpense(l, e.(userId := u)).ledger
    // the created expense is written back exactly when the insert and both
    // reads succeeded, whether or not the publish does
    ensures o.response.ExpenseBody? <==> !f.persist && !f.weeklyTotal && !f.limit && u in l.users
    ensures o.response.ExpenseBody? ==> o.response.expense == e.(userId := u, id := l.nextId)
    ensures !o.response.ExpenseBody? ==> o.published == [] && |o.calls| <= 3
  {
    var owned := e.(userId := u);
    if f.persist then Outcome(Error(InternalServerError, CreateFailed), l, [], [CreateExpenseCall(owned)])
    else
      var ins := Store.CreateExpense(l, owned);
      var rest := AfterInsert(ins, u, today, f);
      assert ins.ledger.users == l.users && ins.expense == owned.(id := l.nextId);
      rest.(calls := [CreateExpenseCall(owned)] + rest.calls)
  }

  /** POST /api/expenses: the `X-User-ID` header and then the payload are
      checked before any call is made; a missing header is a 401, a malformed
      header or payload a 400. */
  function CreateExpense(l: Store.Ledger, header: HeaderValue, body: Parse<Expense>, today: int, f: CreateFaults): (o: Outcome)
    ensures header.Missing? ==> o == Outcome(Error(Unauthorized, MissingUserId), l, [], [])
    ensures header.Malformed? ==> o == Outcome(Error(BadRequest, MalformedUserId), l, [], [])
    ensures header.UserId? && body.Rejected? ==> o == Outcome(Error(BadRequest, InvalidPayload), l, [], [])
    ensures o.calls != [] <==> header.UserId? && body.Accepted?
    ensures header.UserId? && body.Accepted? ==> o == RecordExpense(l, header.id, body.value, today, f)
    // once the header and payload are accepted, only a failed insert is an
    // error status: a request cut short after the insert still answers 200
    ensures header.UserId? && body.Accepted? ==> Status(o.response) == if f.persist then InternalServerError else 200
  {
    match header
    case Missing => Outcome(Error(Unauthorized, MissingUserId), l, [], [])
    case Malformed => Outcome(Error(BadRequest, MalformedUserId), l, [], [])
    case UserId(u) =>
      match body
      case Rejected => Outcome(Error(BadRequest, InvalidPayload), l, [], [])
      case Accepted(e) => RecordExpense(l, u, e, today, f)
  }

  /** GET /api/expenses: the header's user's expenses, or 401/400 before any
      call, or 500 when the query fails. Never changes the ledger. */
  function ListExpenses(l: Store.Ledger, header: HeaderValue, fault: bool): (o: Outcome)
    ensures o.ledger == l && o.published == []
    ensures header.Missing? ==> o.response == Error(Unauthorized, MissingUserId) && o.calls == []
    ensures header.Malformed? ==> o.response == Error(BadRequest, MalformedUserId) && o.calls == []
    ensures header.UserId? ==> o.calls == [ListExpensesCall(header.id)]
    ensures header.UserId? && fault ==> o.response == Error(InternalServerError, ListFailed)
    ensures o.response.ExpensesBody? <==> header.UserId? && !fault
    ensures o.response.ExpensesBody? ==>
              forall e :: e in o.response.expenses <==> e in l.expenses && e.userId == header.id
    ensures o.response.ExpensesBody? ==> o.response.expenses == Store.ListExpenses(l, header.id)
  {
    match header
    case Missing => Outcome(Error(Unauthorized, MissingUserId), l, [], [])
    case Malformed => Outcome(Error(BadRequest, MalformedUserId), l, [], [])
    case UserId(u) =>
      var calls := [ListExpensesCall(u)];
      if fault then Outcome(Error(InternalServerError, ListFailed), l, [], calls)
      else Outcome(ExpensesBody(Store.ListExpenses(l, u)), l, [], calls)
  }

  /** DELETE /api/expenses/{id}: an unparseable id or one that is not positive
      is a 400 before the store is called; a failed or row-less delete is a
      500; otherwise 204. */
  function DeleteExpense(l: Store.Ledger, id: Parse<int>, fault: bool): (o: Outcome)
    ensures o.published == []
    ensures id.Rejected? || id.value <= 0 ==>
              o.response == Error(BadRequest, InvalidExpenseId) && o.calls == [] && o.ledger == l
    ensures id.Accepted? && id.value > 0 ==> o.calls == [DeleteExpenseCall(id.value)]
    ensures o.response == NoContent <==>
              id.Accepted? && id.value > 0 && !fault && exists e :: e in l.expenses && e.id == id.value
    ensures id.Accepted? && id.value > 0 && o.response != NoContent ==> o.response == Error(InternalServerError, DeleteFailed)
    ensures o.response != NoContent ==> o.ledger == l
    ensures o.response == NoContent ==> o.ledger == Store.DeleteExpense(l, id.value).value
    ensures o.response == NoContent ==>
              && o.ledger.users == l.users
              && forall e :: e in o.ledger.expenses <==> e in l.expenses && e.id != id.value
  {
    if id.Rejected? || id.value <= 0 then Outcome(Error(BadRequest, InvalidExpenseId), l, [], [])
    else
      var calls := [DeleteExpenseCall(id.value)];
      var deleted := if fault then Store.Err(Store.Fault) else Store.DeleteExpense(l, id.value);
      if deleted.Err? then Outcome(Error(InternalServerError, DeleteFailed), l, [], calls)
      else Outcome(NoContent, deleted.value, [], calls)
  }

  /** PUT /api/users/limit: 401/400 on the header, 400 on the payload, 500
      when the update fails or touches no user, otherwise 204. */
  function SetUserWeeklyLimit(l: Store.Ledger, header: HeaderValue, body: Parse<int>, fault: bool): (o: Outcome)
    ensures o.published == []
    ensures header.Missing? ==> o == Outcome(Error(Unauthorized, MissingUserId), l, [], [])
    ensures header.Malformed? ==> o == Outcome(Error(BadRequest, MalformedUserId), l, [], [])
    ensures header.UserId? && body.Rejected? ==> o == Outcome(Error(BadRequest, InvalidPayload), l, [], [])
    ensures header.UserId? && body.Accepted? ==> o.calls == [SetUserWeeklyLimitCall(header.id, body.value)]
    ensures o.response == NoContent <==> header.UserId? && body.Accepted? && !fault && header.id in l.users
    ensures header.UserId? && body.Accepted? && o.response != NoContent ==>
              o.response == Error(InternalServerError, SetLimitFailed)
    ensures o.response != NoContent ==> o.ledger == l
    ensures o.response == NoContent ==> o.ledger == Store.SetUserWeeklyLimit(l, header.id, body.value).value
    ensures o.response == NoContent ==>
              && o.ledger.expenses == l.expenses
              && Store.GetUserWeeklyLimit(o.ledger, header.id) == Store.Ok(body.value)
              && forall v :: v != header.id ==> Store.GetUserWeeklyLimit(o.ledger, v) == Store.GetUserWeeklyLimit(l, v)
  {
    match header
    case Missing => Outcome(Error(Unauthorized, MissingUserId), l, [], [])
    case Malformed => Outcome(Error(BadRequest, MalformedUserId), l, [], [])
    case UserId(u) =>
      match body
      case Rejected => Outcome(Error(BadRequest, InvalidPayload), l, [], [])
      case Accepted(n) =>
        var calls := [SetUserWeeklyLimitCall(u, n)];
        var updated := if fault then Store.Err(Store.Fault) else Store.SetUserWeeklyLimit(l, u, n);
        if updated.Err? then Outcome(Error(InternalServerError, SetLimitFailed), l, [], calls)
        else Outcome(NoContent, updated.value, [], calls)
  }

  /** GET /api/users/limit: 401/400 on the header, 500 when the read fails or
      the user is unknown, otherwise the user's limit. */
  function GetUserWeeklyLimit(l: Store.Ledger, header: HeaderValue, fault: bool): (o: Outcome)
    ensures o.ledger == l && o.published == []
    ensures header.Missing? ==> o.response == Error(Unauthorized, LimitReadMissingUserId) && o.calls == []
    ensures header.Malformed? ==> o.response == Error(BadRequest, LimitReadMalformedUserId) && o.calls == []
    ensures header.UserId? ==> o.calls == [GetUserWeeklyLimitCall(header.id)]
    ensures o.response.WeeklyLimitBody? <==> header.UserId? && !fault && header.id in l.users
    ensures o.response.WeeklyLimitBody? ==> o.response.weeklyLimit == l.users[header.id].weeklyLimit
    ensures header.UserId? && !o.response.WeeklyLimitBody? ==> o.response == Error(InternalServerError, GetLimitFailed)
  {
    match header
    case Missing => Outcome(Error(Unauthorized, LimitReadMissingUserId), l, [], [])
    case Malformed => Outcome(Error(BadRequest, LimitReadMalformedUserId), l, [], [])
    case UserId(u) =>
      var calls := [GetUserWeeklyLimitCall(u)];
      var read := if fault then Store.Err(Store.Fault) else Store.GetUserWeeklyLimit(l, u);
      if read.Err? then Outcome(Error(InternalServerError, GetLimitFailed), l, [], calls)
      else Outcome(WeeklyLimitBody(read.value), l, [], calls)
  }

  /** POST /auth/login: 400 on the payload; 404 when the email lookup fails,
      before the password is looked at; 401 when the password does not match
      the stored hash; otherwise the user's id. `passwordMatches(hash, pw)`
      stands for bcrypt's comparison. */
  function AuthenticateUser(l: Store.Ledger, body: Parse<Credentials>, fault: bool,
                            passwordMatches: (string, string) -> bool): (o: Outcome)
    ensures o.ledger == l && o.published == []
    ensures body.Rejected? ==> o.response == Error(BadRequest, InvalidPayload) && o.calls == []
    ensures body.Accepted? ==> o.calls == [GetUserByEmailCall(body.value.email)]
    ensures o.response == Error(NotFoundStatus, UserNotFound) <==>
              body.Accepted? && (fault || forall k :: k in l.users ==> l.users[k].email != body.value.email)
    ensures o.response.UserIdBody? ==>
              exists k :: && k in l.users && l.users[k].id == o.response.userId
                          && l.users[k].email == body.value.email
                          && passwordMatches(l.users[k].passwordHash, body.value.password)
    ensures body.Accepted? && !fault && Store.GetUserByEmail(l, body.value.email).Ok? ==>
              var u := Store.GetUserByEmail(l, body.value.email).value;
              o.response == (if passwordMatches(u.passwordHash, body.value.password) then UserIdBody(u.id)
                             else Error(Unauthorized, BadCredentials))
    ensures o.response == Error(Unauthorized, BadCredentials) ==>
              exists k :: && k in l.users && l.users[k].email == body.value.email
                          && !passwordMatches(l.users[k].passwordHash, body.value.password)
  {
    match body
    case Rejected => Outcome(Error(BadRequest, InvalidPayload), l, [], [])
    case Accepted(c) =>
      var calls := [GetUserByEmailCall(c.email)];
      var found := if fault then Store.Err(Store.Fault) else Store.GetUserByEmail(l, c.email);
      if found.Err? then Outcome(Error(NotFoundStatus, UserNotFound), l, [], calls)
      else if !passwordMatches(found.value.passwordHash, c.password) then
        Outcome(Error(Unauthorized, BadCredentials), l, [], calls)
      else Outcome(UserIdBody(found.value.id), l, [], calls)
  }
}
