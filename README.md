# Budgeting service: document storages and message consumer

This project models three pieces of the budgeting service's Go code in Dafny.

- **The `transactions` storage** (`TransactionStorage`). It supports create, list with a filter, get by id, partial update and soft delete on a MongoDB collection.
- **The `goals` storage** (`GoalStorage`). It supports the same five operations. Unlike transactions, an update skips goals that carry a `deleted_at` mark.
- **One topic consumer of the RabbitMQ broker** (`Msgbroker`). It dispatches each delivery to a service handler through a fixed topic table. It then acknowledges or rejects the delivery and stops when the context is cancelled.

Two helper modules support them. `Mongo` holds the shared results and errors, a store scan (`Find` with a filter, read in insertion order, which this model fixes because the store promises no order without a sort) and `$set` application. `ObjectIds` holds object ids and their 24-digit hexadecimal form.

The storages are classes. Each holds its collection as a map from object id to document, plus the collection's insertion order. Every operation that changes the collection is a method with a `modifies` clause, and its `ensures` state the new collection completely.

Reads are functions or loop methods, proved against specification functions:
- `Matching` is the scan.
- `DecodeTransaction` and `DecodeGoal` are the document-to-response conversions.
- `ListFilter` and `UpdateFields` are the filter and `$set` lists the code builds by successive appends.
- `Updated` is the declarative post-image of an update.

A Go result `(ptr, err)` becomes `Reply`: `Found(value)`, `Nil` for the `(nil, nil)` result, or `Failed(error)`.

The consumer's loop runs over a finite sequence of events. Each event is either a delivery or the done signal. Each delivery records whether its body decodes and what the handler returns. The consumer's side effects are recorded in order:
- acknowledgements on an `Acknowledger`;
- calls into the service layer on `MsgBroker.calls`;
- the wait-group counter.

The model follows the Go code in every case below, including where the service's documented intent differs:
- `CreateTransaction` and `CreateGoal` write neither `updated_at` nor `deleted_at`.
- Every read converts `updated_at` unconditionally (for example `transaction-storage.go:115,161`). A freshly created record therefore cannot be read back. The model returns `Failed(BadCast("updated_at"))`, where Go panics on the failed type assertion. There is no create-then-read round trip, and the contracts of `CreateTransaction` and `CreateGoal` state this.
- List reads apply no soft-delete exclusion.
- `UpdateTransaction` matches on `_id` alone, so soft-deleted transactions are still updated. Only `UpdateGoal` has the `deleted_at` guard.
- A repeated delete stamps `deleted_at` again with the new time; it does not keep the first value.
- The storages have no cache logic. The `redis` field is stored but never read.

## Model

| member | source | states |
|---|---|---|
| Mongo.Matching | internal/items/storage/mongodb/transaction-storage.go:90-98 | the `Find` scan in the model's fixed collection order: it yields at most one entry per id of that order; `MatchingSound` and `MatchingComplete` state which entries |
| Mongo.MatchingSound | internal/items/storage/mongodb/transaction-storage.go:90-98 | every document the cursor yields is stored under its id and satisfies the filter |
| Mongo.MatchingComplete | internal/items/storage/mongodb/transaction-storage.go:90-98 | every stored document in the collection that satisfies the filter is yielded; nothing else excludes it |
| Mongo.MatchingEverything | internal/items/storage/mongodb/transaction-storage.go:90-98 | a filter every stored document satisfies yields the whole collection: exactly one entry per id, each with its stored document, in scan order |
| Mongo.ApplyAllConcat | internal/items/storage/mongodb/transaction-storage.go:199-201 | `$set` entries take effect in order: applying a concatenation is applying its parts one after the other |
| ObjectIds.FromHex | internal/items/storage/mongodb/transaction-storage.go:132-136 | an id string is accepted iff it is exactly 24 hexadecimal digits (either case); otherwise it is an invalid id |
| ObjectIds.Hex | internal/items/storage/mongodb/transaction-storage.go:59 | the hex form of an id is 24 characters long |
| ObjectIds.FromHexOfHex | internal/items/storage/mongodb/transaction-storage.go:59 | the returned id string parses back to the inserted id |
| ObjectIds.HexInjective | internal/items/storage/mongodb/transaction-storage.go:59 | distinct ids have distinct hex forms |
| TransactionStorage.DecodeTransaction | internal/items/storage/mongodb/transaction-storage.go:151-162 | conversion succeeds iff the document has `updated_at`; failure is the `updated_at` cast; on success the response's id parses back to the document id and the response with the document's `deleted_at` gives back the document |
| TransactionStorage.ListFilter | internal/items/storage/mongodb/transaction-storage.go:79-88 | the filter holds a `user_id`/`account_id`/`category_id` equality exactly when that request field is non-empty, with the request's value, and no empty value |
| TransactionStorage.ListFilterMeaning | internal/items/storage/mongodb/transaction-storage.go:79-90 | a document satisfies the filter iff it equals every non-empty request field; soft deletion plays no part |
| TransactionStorage.BuildListFilter | internal/items/storage/mongodb/transaction-storage.go:79-88 | the successive appends build exactly `ListFilter` |
| TransactionStorage.UpdateFields | internal/items/storage/mongodb/transaction-storage.go:177-192 | `$set` is empty iff nothing is selectable; `updated_at` is in it iff something was selected; every other entry is a non-zero amount or non-empty type/description/date taken from the request |
| TransactionStorage.BuildUpdateFields | internal/items/storage/mongodb/transaction-storage.go:177-192 | the successive appends build exactly `UpdateFields` |
| TransactionStorage.ApplyField | internal/items/storage/mongodb/transaction-storage.go:199-201 | one `$set` entry changes only the field it names and never user, account, category, `created_at` or `deleted_at` |
| TransactionStorage.Updated | internal/items/storage/mongodb/transaction-storage.go:177-201 | after a non-empty update, `updated_at` is now, each non-zero or non-empty request field takes the request's value, and every other field keeps its stored value |
| TransactionStorage.Inserted | internal/items/storage/mongodb/transaction-storage.go:42-51 | the inserted document holds exactly the request fields and `created_at`, with neither `updated_at` nor `deleted_at`, so no id decodes it |
| TransactionStorage.UpdateFieldsApply | internal/items/storage/mongodb/transaction-storage.go:190-201 | applying the `$set` of a non-empty update to a document yields `Updated`: each selected field takes the request value, `updated_at` becomes now, nothing else changes |
| TransactionStorage.UpdatedKeepsIdentity | internal/items/storage/mongodb/transaction-storage.go:177-192 | an update never changes user, account, category, `created_at` or `deleted_at`, and cannot zero the amount or clear a string field |
| TransactionStorage.TransactionStore.CreateTransaction | internal/items/storage/mongodb/transaction-storage.go:36-72 | inserts exactly the request fields and `created_at`, appends the id to the scan order, echoes the request with empty `UpdatedAt`; an id already held is a duplicate-key error with no change; the new record's get-by-id fails on `updated_at` |
| TransactionStorage.DecodeCursor | internal/items/storage/mongodb/transaction-storage.go:98-117 | draining the cursor fails with the `updated_at` cast iff some yielded document lacks `updated_at`; otherwise the result holds, position by position, the decoding of every yielded document |
| TransactionStorage.TransactionStore.GetTransactions | internal/items/storage/mongodb/transaction-storage.go:74-125 | the read fails (with the `updated_at` cast) iff some matching document lacks `updated_at`; otherwise it returns exactly the decoded matching documents, in the scan order, with no partial list |
| TransactionStorage.TransactionStore.GetTransactionById | internal/items/storage/mongodb/transaction-storage.go:127-163 | an unparsable id is an error; a valid id with no document is `(nil, nil)`; the document comes back exactly when it has `updated_at`, decoded; otherwise the read fails with the `updated_at` cast |
| TransactionStorage.TransactionStore.UpdateTransaction | internal/items/storage/mongodb/transaction-storage.go:165-229 | invalid id is an error; nothing selectable or no such id is `(nil, nil)` with no write; otherwise the document (soft-deleted or not) becomes `Updated` and the post-image is returned with `updated_at` = now |
| TransactionStorage.TransactionStore.DeleteTransaction | internal/items/storage/mongodb/transaction-storage.go:231-256 | invalid id is an error; otherwise success, and only `deleted_at` of the matching document (if any) is set to now, again on a repeat delete; nothing is removed |
| TransactionStorage.EmptyListRequestMatchesAll | internal/items/storage/mongodb/transaction-storage.go:79-90 | an all-empty list request lists every stored document, soft-deleted ones included |
| TransactionStorage.DeletedTransactionsListed | internal/items/storage/mongodb/transaction-storage.go:79-90 | a soft-deleted transaction that satisfies the filter is listed |
| TransactionStorage.ListedMatchRequest | internal/items/storage/mongodb/transaction-storage.go:79-98 | every listed document is stored under its id and equals every non-empty request field |
| GoalStorage.DecodeGoal | internal/items/storage/mongodb/goal-storage.go:137-147 | conversion succeeds iff the document has `updated_at`; failure is the `updated_at` cast; on success the id parses back and the response with `deleted_at` gives back the document |
| GoalStorage.UpdateFields | internal/items/storage/mongodb/goal-storage.go:165-183 | `$set` is empty iff nothing is selectable; `updated_at` is in it iff something was selected; every other entry is a non-empty name/deadline/status or a non-zero target/current amount from the request |
| GoalStorage.BuildUpdateFields | internal/items/storage/mongodb/goal-storage.go:165-183 | the successive appends build exactly `UpdateFields` |
| GoalStorage.ApplyField | internal/items/storage/mongodb/goal-storage.go:190-192 | one `$set` entry changes only the field it names and never user, `created_at` or `deleted_at` |
| GoalStorage.Updated | internal/items/storage/mongodb/goal-storage.go:165-192 | after a non-empty update, `updated_at` is now, each non-empty or non-zero request field takes the request's value, and every other field keeps its stored value |
| GoalStorage.Inserted | internal/items/storage/mongodb/goal-storage.go:42-50 | the inserted goal holds exactly the request fields and `created_at`, with neither `updated_at` nor `deleted_at`, so no id decodes it |
| GoalStorage.UpdateFieldsApply | internal/items/storage/mongodb/goal-storage.go:181-192 | applying the `$set` of a non-empty update yields `Updated`: selected fields take the request values, `updated_at` becomes now, nothing else changes |
| GoalStorage.UpdatedKeepsIdentity | internal/items/storage/mongodb/goal-storage.go:165-183 | an update never changes user, `created_at` or `deleted_at`, never resets an amount to zero and never clears a string field |
| GoalStorage.GoalStore.CreateGoal | internal/items/storage/mongodb/goal-storage.go:36-70 | inserts exactly the request fields and `created_at` (no `deleted_at`), appends to the scan order, echoes the request with empty `UpdatedAt`; a held id is a duplicate-key error; the new goal's get-by-id fails on `updated_at` |
| GoalStorage.DecodeCursor | internal/items/storage/mongodb/goal-storage.go:86-104 | draining the cursor fails iff some yielded goal lacks `updated_at`; otherwise the decoding of every yielded goal, in cursor order |
| GoalStorage.GoalStore.GetGoals | internal/items/storage/mongodb/goal-storage.go:72-112 | the read fails iff some goal of the user lacks `updated_at`; otherwise exactly the user's decoded goals in the scan order |
| GoalStorage.GoalStore.GetGoalById | internal/items/storage/mongodb/goal-storage.go:114-148 | an unparsable id is an error; a valid id with no document is `(nil, nil)`; the goal comes back exactly when it has `updated_at`, decoded; otherwise the read fails with the `updated_at` cast |
| GoalStorage.GoalStore.UpdateGoal | internal/items/storage/mongodb/goal-storage.go:150-219 | invalid id is an error; nothing selectable, no such id or a soft-deleted goal is `(nil, nil)` with no write; otherwise the goal becomes `Updated` and the post-image is returned |
| GoalStorage.GoalStore.DeleteGoal | internal/items/storage/mongodb/goal-storage.go:221-245 | invalid id is an error; otherwise success, and only `deleted_at` of the matching goal (if any) is set to now |
| GoalStorage.DeleteThenUpdate | internal/items/storage/mongodb/goal-storage.go:160-197 | after a delete by any accepted spelling of an id, any update of that id, in any spelling, returns `(nil, nil)` and leaves the collection as the delete left it, whether or not the goal was stored |
| GoalStorage.EmptyUserIdIsNotWildcard | internal/items/storage/mongodb/goal-storage.go:76-78 | an empty user id in the request is an equality on the empty string, not a wildcard |
| GoalStorage.DeletedGoalsListed | internal/items/storage/mongodb/goal-storage.go:76-86 | a soft-deleted goal of the requested user is still listed |
| GoalStorage.ListedGoalsBelongToUser | internal/items/storage/mongodb/goal-storage.go:76-86 | every listed goal is stored under its id and belongs to the requested user |
| Msgbroker.HandlerFor | internal/items/msgbroker/msgbroker.go:73-106 | the handler chosen for a topic is the one that serves that topic |
| Msgbroker.HandlerTable | internal/items/msgbroker/msgbroker.go:73-106 | the table maps the four topics one-to-one onto CreateTransaction, UpdateBudget, UpdateGoal, GetNotifications; any other topic maps to nothing |
| Msgbroker.Resolve | internal/items/msgbroker/msgbroker.go:73-114 | a delivery gets one resolution for its own tag, never `multiple`, never requeued; it is a Nack iff the topic is known and the body fails to decode or the handler errs |
| Msgbroker.CallsFor | internal/items/msgbroker/msgbroker.go:73-106 | a delivery makes at most one service call, exactly when the topic is known and the body decodes, to the topic's handler |
| Msgbroker.ResolvedExactlyOnceInOrder | internal/items/msgbroker/msgbroker.go:67-114 | the k-th resolution sent is the k-th delivery's, and there are as many resolutions as deliveries |
| Msgbroker.NeverRequeued | internal/items/msgbroker/msgbroker.go:76-114 | no resolution is `multiple` and no Nack asks for a requeue |
| Msgbroker.PoisonMessageSkipped | internal/items/msgbroker/msgbroker.go:76-80 | an undecodable body is Nacked without requeue, calls no handler, and the deliveries around it are handled unchanged |
| Msgbroker.HandlerErrorRejected | internal/items/msgbroker/msgbroker.go:108-112 | a handler error Nacks the delivery without requeue after the one call, and handling goes on with the next delivery |
| Msgbroker.SuccessAcknowledged | internal/items/msgbroker/msgbroker.go:108-120 | a decoded delivery whose handler returns a response, a nil one included, is Acked |
| Msgbroker.UnknownTopicAcknowledgesAll | internal/items/msgbroker/msgbroker.go:73-114 | a topic outside the table calls nothing and Acks every delivery |
| Msgbroker.NothingAfterDone | internal/items/msgbroker/msgbroker.go:122-124 | no event after the done signal is taken |
| Msgbroker.OutcomeOf | internal/items/msgbroker/msgbroker.go:97-108 | a storage reply counts as a handler error iff it is an error; `(nil, nil)` is a nil response |
| Msgbroker.NilReplyAcknowledged | internal/items/msgbroker/msgbroker.go:97-114 | a `(nil, nil)` goal-update result is Acked whenever the body decoded or the topic is unknown |
| Msgbroker.WaitGroup.Done | internal/items/msgbroker/msgbroker.go:66 | signals completion by decrementing the counter once |
| Msgbroker.Acknowledger.Ack | internal/items/msgbroker/msgbroker.go:114 | `val.Ack(multiple)` appends exactly one Ack for that tag to the channel's resolutions |
| Msgbroker.Acknowledger.Nack | internal/items/msgbroker/msgbroker.go:76-111 | `val.Nack(multiple, requeue)` appends exactly one Nack for that tag to the channel's resolutions |
| Msgbroker.MsgBroker.HandleDelivery | internal/items/msgbroker/msgbroker.go:69-120 | one pass of the loop sends exactly `Resolve`'s resolution and makes exactly `CallsFor`'s calls |
| Msgbroker.MsgBroker.ConsumeMessages | internal/items/msgbroker/msgbroker.go:65-127 | returns iff the done signal arrives; sends the resolutions of exactly the deliveries before it, in order; makes exactly their calls; decrements the wait group once iff it returned |

## Left out

- `StartToConsume` (`msgbroker.go:45-63`) is left out. Its goroutines, signal wait, context cancellation and `wg.Wait` are concurrency. The consumer is modelled alone, with the done signal as an input event.
- The `select` chooses nondeterministically between a delivery and the done signal. The model takes that choice as given by the event order. Reading from a closed delivery channel is not modelled.
- The consumer's reaction to the done signal is modelled only when the signal is among the events it takes. If the events run out first, `ConsumeMessages` returns `false` and stands for a consumer still waiting.
- JSON decoding of a body is the `decodes` flag of a delivery. The request messages themselves are not modelled.
- The service handlers are outside the consumer. Each delivery carries its handler outcome as input; `OutcomeOf` relates that outcome to a storage reply.
- `proto.Marshal` of the response after the Ack (`msgbroker.go:116-120`) only logs on failure. It has no effect and is not modelled.
- Logging is not modelled, in any file.
- AMQP connection, queue and consumer setup (`connectMsgbroker.go`) are not part of this model.
- GetTransactions, GetGoals: the order of their result is the collection's insertion order, a choice of this model. `Find` is called with no sort (`transaction-storage.go:90`, `goal-storage.go:78`), and MongoDB guarantees no order then. So the position-by-position clause holds only under that choice; which documents are listed does not depend on it.
- Store and network failures are not modelled: of `InsertOne`, `Find`, `FindOneAndUpdate` and `UpdateOne`, of `cursor.Decode` and of `cursor.Err`. A duplicate id on insert is the only insert failure modelled.
- The driver generates new object ids. Here the new id is a parameter of `CreateTransaction` and `CreateGoal`.
- `time.Now()` is a `Time` parameter. The `String()` rendering of times in responses is not modelled; a response carries the time value itself.
- Amounts are `float32` in requests and `float64` in storage. They are modelled as integers, and only their zero test matters.
- The string type assertions on `user_id`, `name` and the other fields always hold for documents this code writes, so they are not modelled as failures. Only `updated_at` can be missing.
- DecodeTransaction, DecodeGoal: these model the failed `updated_at` assertion, which is a Go runtime panic, as an ordinary error result `BadCast("updated_at")`.
- OutcomeOf: maps every `Failed` reply, `BadCast` included, to a handler error that is Nacked. In the program a `BadCast` is a panic; `consumeMessages` has no `recover`, so the process would stop with that delivery unresolved. No handler the consumer calls can produce `BadCast`: `GoalStorage.GoalStore.UpdateGoal`'s contract rules it out, and `CreateTransaction` decodes nothing.
- The redis field of both storages is not modelled; no method reads it.
- Services, repositories, the gRPC server, configuration, process wiring and the stub storages are not modelled. They contain no logic of the storages or the consumer.
