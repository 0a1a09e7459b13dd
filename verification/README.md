# Expense tracker: recording pipeline and ledger, modelled in Dafny

This project models the core of a small Go expense-tracking service. Users record expenses. Each user has a weekly spending limit. When recording an expense pushes the user's weekly total near or past that limit, the service publishes a notification to a queue.

The model has five modules, one file each, plus a helper module:

- `Domain` (`domain.dfy`): the `Expense` and `User` rows, and the `Notification` message. The notification text is one of two fixed sentences, so it is the two-valued `Message`; `Text` gives each its exact wording.
- `Store` (`store.dfy`): the `Store` interface as an in-memory ledger. It holds the expenses in insertion order, the users keyed by id, and the next serial id. Each operation follows its SQL query. An insert assigns the next id. A list selects by owner. A delete or limit update fails when it affects no row. A limit read or email lookup fails when it finds no row. The weekly total is `COALESCE(SUM(amount), 0)` over the week starting at a given day. A ledger is valid when its expense ids are positive, distinct and below the next serial value, and each user row is filed under its own id.
- `Handlers` (`handlers.dfy`): every HTTP handler as a pure function. Each takes the ledger plus the outcome of every external call it makes. It returns an `Outcome`, which holds the response, the ledger afterwards, the notifications the queue accepted, and the store and publish calls made, in order. `CreateExpense` runs these steps in order: header check, payload check, insert, weekly-total read, limit read, classification, publish, write-back.
- `StoreProperties` and `HandlerProperties`: lemmas that relate the operations to each other.
- `Seqs` (`seqs.dfy`): order-preserving filtering, the in-memory form of a `WHERE` clause. `FilterMembers` states what a filter keeps.

Inputs that stand in for the outside world:

- The `X-User-ID` header arrives already parsed by `strconv.Atoi`, as `Missing`, `Malformed` or `UserId(n)`.
- JSON bodies and the `{id}` path parameter arrive as `Rejected` or `Accepted(value)`.
- A store call that fails for a database reason, and a publish the queue refuses, are boolean inputs (`CreateFaults`, `fault`).
- The clock is a day number `today`. Day 0 is 1970-01-01. `WeekStart(today)` is the Monday on or before `today`. It stands for `date_trunc('week', CURRENT_DATE)`.
- bcrypt's password comparison is a function parameter `passwordMatches(hash, password)`.

Behaviour the model follows exactly as the code has it:

- There is no guard for a limit of zero or less in `handlers.go:86-90`. With a limit of 0, any positive weekly total takes the "exceeded" branch. `Handlers.Classify` states this.
- After a successful insert, a failed weekly-total or limit read makes the handler log and return without writing anything (`handlers.go:74-83`), so the client gets an empty 200 and not the recorded expense. The model returns `Silent` here.
- The 80% test truncates a float product, `int(0.8*float64(limit))`. `Handlers.Classify` proves that this truncated threshold always gives the same level as the exact comparison `5*total > 4*limit`. This holds under the float assumption stated below.

## Model

| member | source | states |
|---|---|---|
| Store.CreateExpense | store.go:40-54 | The stored row is the given expense with only its id replaced by the next serial value; it is appended after the existing rows, the users are untouched and the serial advances |
| Store.ListExpenses | store.go:56-84 | The result holds exactly the expenses whose owner is the given user, each as many times as the table holds it, and is the empty sequence (not a failure) when there are none |
| Store.SetUserWeeklyLimit | store.go:87-104 | Fails with NotFound exactly when the user does not exist; otherwise the expenses, the set of users and every other user's row are unchanged and the user's row differs only in its limit, which becomes the new value |
| Store.GetUserWeeklyLimit | store.go:106-123 | Fails with NotFound exactly when the user does not exist; otherwise yields that user's stored limit |
| Store.GetUserByEmail | store.go:125-133 | Fails with NotFound exactly when no user has the email; otherwise yields a stored user row carrying that email |
| Store.DeleteExpense | store.go:135-151 | Fails with NotFound exactly when no expense has the id; otherwise exactly the rows without that id remain, in their order, and users and serial are unchanged |
| Store.GetWeeklyExpenses | store.go:153-169 | The weekly sum is 0 when the user has no expense dated in the week, and is never negative when no amount is |
| Store.SumAmounts | store.go:155 | The sum of no rows is 0; over non-negative amounts it is non-negative and at least every single amount |
| StoreProperties.CreateKeepsValid | store.go:40-54 | On a valid ledger an insert hands out an id no stored row has, and the ledger stays valid |
| StoreProperties.DeleteKeepsValid | store.go:135-151 | On a valid ledger a successful delete removes exactly one row and the ledger stays valid |
| StoreProperties.CreateThenList | store.go:40-84 | After an insert the owner's listing is the old listing with the stored row appended, other users' listings are unchanged, and the new row occurs exactly once with the caller's fields |
| StoreProperties.CreateThenDelete | store.go:135-151 | Deleting by the id an insert returned succeeds and restores the ledger as it was, apart from the advanced serial |
| StoreProperties.SetThenGet | store.go:87-123 | Reading a limit back after setting it yields the new value, other users' limits read as before, and setting fails exactly when reading fails |
| StoreProperties.WeeklyTotalOfListed | store.go:153-169 | The weekly total equals the sum of amounts of the user's listed expenses dated in the week |
| StoreProperties.CreateAddsToWeeklyTotal | store.go:153-169 | An insert raises the owner's weekly total by the new amount exactly when its date is in the week, and changes no other total |
| StoreProperties.DeleteSubtractsFromWeeklyTotal | store.go:135-169 | Deleting a stored expense succeeds and lowers its owner's weekly total by its amount exactly when its date is in the week, and changes no other total |
| Domain.Text | handlers.go:86-90 | Each message's wording is non-empty, which is what lets the empty text mean "no notification" |
| Domain.TextsDiffer | handlers.go:86-90 | The exceeded and nearing wordings differ |
| Handlers.Status | handlers.go:45-232 | An error response is sent with its code, a 204 response with 204, and a handler that writes nothing is answered with 200 |
| Handlers.WeekStart | store.go:158-159 | The week window starts on a Monday no later than today and includes today |
| Handlers.NearingThreshold | handlers.go:88 | The 80% threshold is 4*limit/5 truncated toward zero, bounded on both sides for positive and negative limits |
| Handlers.Classify | handlers.go:85-90 | Exceeded exactly when total > limit (so total == limit never is); nearing exactly when total <= limit and 5*total > 4*limit; no guard for a limit of 0 or less |
| Handlers.MessageFor | handlers.go:85-90 | The chosen text is empty exactly when neither branch fires |
| Handlers.NotificationFor | handlers.go:92-98 | At most one notification, present exactly when total > limit or 5*total > 4*limit, carrying the user, the total read, the limit read and the exceeded message when total > limit, else the nearing message |
| Handlers.ChosenTextIsSent | handlers.go:85-98 | A notification is built exactly when the chosen text is not empty, and its message has that text |
| Handlers.AfterInsert | handlers.go:72-108 | After the insert: a failed total read stops before the limit read; a failed or row-less limit read stops without publishing or writing; otherwise the stored expense is written back, the chosen notification is published once, and it is dropped only if the queue refuses it |
| Handlers.RecordExpense | handlers.go:62-108 | The first call is the insert of the expense owned by the header user; a failed insert gives 500 with nothing else called or stored; otherwise the ledger is the one the insert left; the stored expense is written back exactly when the insert and both reads succeed; without a body nothing is published |
| Handlers.CreateExpense | handlers.go:41-60 | Missing header gives 401, malformed header 400, rejected payload 400, each with no call and no change; a call is made exactly when header and payload are accepted, and then the request is the recording of that expense for that user, answered 500 after a failed insert and 200 on every other path, with or without a body |
| Handlers.ListExpenses | handlers.go:112-134 | 401/400 on the header with no call; otherwise one list call, 500 on failure, else the store's listing of the user's expenses; the ledger never changes |
| Handlers.DeleteExpense | handlers.go:136-151 | An unparseable or non-positive id gives 400 without calling the store; 204 exactly when the store succeeds and a row has the id, and then the ledger is exactly the store's delete result, so only that row disappears; otherwise a 500 with the delete failure message; on every other path the ledger is unchanged |
| Handlers.SetUserWeeklyLimit | handlers.go:153-181 | 401/400 on the header and 400 on the payload, with no call; 204 exactly when the user exists and the update succeeds, and then the ledger is exactly the store's update result, otherwise a 500 with the set-limit failure message; after which the limit reads back as the new value and other users' limits are unchanged |
| Handlers.GetUserWeeklyLimit | handlers.go:183-205 | 401/400 on the header with no call; the stored limit exactly when the read succeeds and the user exists, otherwise 500; the ledger never changes |
| Handlers.AuthenticateUser | handlers.go:207-232 | 400 on the payload with no call; 404 exactly when the lookup fails or no user has the email, whatever the password; for the user the lookup finds, the user's id when the password matches its hash and 401 otherwise; 401 only for a user with that email whose hash the password does not match; a user id only for a matching user |
| HandlerProperties.ReadFailureEndsSilently | handlers.go:72-83 | After a successful insert, a failed weekly-total read ends the request with no body after two calls; a failed or row-less limit read ends it with no body after three calls; neither publishes |
| HandlerProperties.PublishesChosenNotification | handlers.go:72-108 | When the insert and both reads succeed, the created expense is written back and the calls are the insert, the two reads and then one publish exactly when the post-insert total and the limit call for a notification |
| HandlerProperties.PublishedUnlessRefused | handlers.go:85-103 | When the insert and both reads succeed, the published notifications are exactly those the post-insert total and the limit call for, or none if the queue refuses |
| HandlerProperties.RecordingAddsToWeeklyTotal | handlers.go:62-77 | Once the insert succeeded, the weekly total the handler reads is the prior total plus the new amount when the expense is dated in the current week |
| HandlerProperties.RecordingEvaluatesPostInsertTotal | handlers.go:62-103 | The notification decision uses the user's prior weekly total plus the new amount (when dated this week) against the stored limit |
| HandlerProperties.ThresholdScenarios | handlers.go:73-99 | With limit 100: 0+50 publishes nothing, 30+55 publishes the nearing message with 85 of 100, 90+20 publishes the exceeded message with 110 of 100 |
| HandlerProperties.CreateHandlerKeepsValid | handlers.go:41-109 | Creating an expense keeps a valid ledger valid, on every path |
| HandlerProperties.SetLimitHandlerKeepsValid | handlers.go:153-181 | Setting a weekly limit keeps a valid ledger valid, on every path |
| HandlerProperties.DeleteHandlerKeepsValid | handlers.go:136-151 | Deleting an expense keeps a valid ledger valid, on every path |
| HandlerProperties.AuthenticatedUserExists | handlers.go:207-232 | On a valid ledger, the user id a successful login returns is a stored user's id |
| HandlerProperties.RecordThenList | handlers.go:62-133 | An expense recorded through the handler and then listed for the same user appears exactly once, with the request's fields, the header's owner and the assigned id |

## Left out

- HTTP mechanics are not modelled: the chi router, the logging middleware, response headers, JSON encoding and decoding, and `strconv.Atoi`. Parsing and decoding are abstract accepted/rejected inputs. A JSON body without `new_limit` decodes in Go to the limit 0; in the model that is `Accepted(0)`.
- The text after the colon in the 500 messages (the `%v` of the underlying error) is not modelled. Responses carry only the fixed message prefix.
- The `log.Printf` calls after a failed weekly-total read, a failed limit read and a failed publish (handlers.go:75, 81, 101) are not modelled. `Outcome` records no log, so these events leave no trace beyond the calls made and the missing body or publish.
- bcrypt is a boolean oracle, because hashing is outside the model.
- The pgx pool, contexts and driver errors are left out. Their only observable effect, that a call can fail, is an explicit input.
- Store.CreateExpense: the zero `Expense` that Go returns beside an error is not modelled. The store function always succeeds and returns the stored row; a failed insert is the handler input `CreateFaults.persist`, on which the handler reads no returned value.
- The database schema is not in the source. So the model has no foreign key on `user_id` (an insert for an unknown user succeeds unless it faults) and no uniqueness of emails.
- Store.GetUserByEmail: when several users share an email, the query returns an unspecified row; the model returns the one with the smallest id.
- Store.ListExpenses: the query has no `ORDER BY`; the model returns rows in insertion order.
- A failed insert still consumes a serial value in PostgreSQL. The model only advances the serial on a successful insert.
- Handlers.NearingThreshold: float64 arithmetic is not modelled. The model assumes |limit| < 2^50. In that range the product `0.8*float64(limit)` lies within 0.2 of the exact value and on the correct side of every integer, so its truncation equals the integer truncation of 4*limit/5.
- Integers are unbounded. The model does not capture Go's 64-bit `int` overflow or a PostgreSQL overflow error from `SUM` or the serial sequence. Such an error would surface as a failed read, which is already an input.
- Dates are whole day numbers. Time of day and the session time zone that `date_trunc` uses are not modelled.
- The RabbitMQ connection, channel, queue declaration and JSON marshalling in publisher.go are left out. Publishing is a call that is either accepted (the notification joins `published`) or refused.
- main.go (config loading and server start-up) is left out. Its `NewHandler(store)` call at main.go:50 does not match the two-argument constructor at handlers.go:22.
- Concurrent requests are not modelled. The code takes no locks, and each handler here is one sequential request.
