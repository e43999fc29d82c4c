# data-controller event handler, modelled in Dafny

The data-controller service receives CloudEvents. It handles an `"insert"` event by
upserting a record (`Id` to `Embeddings`) into a Cassandra table. It handles a `"get"`
event by reading one record back. Every other event type gets an `"error"` reply.
Each event ends in exactly one of three ways: a reply event (type `"inserter"` or
`"error"`, source `"data-controller"`), an HTTP 400, or an HTTP 500.

This project models that handler: `ReceiveAndReply`, `processInsert` and `processGet` in
`cmd/data-controller/main.go`.

- `data_controller.dfy`, module `DataController`, holds the values (`Request`,
  `Response`, `ReplyEvent`, `Outcome`) and the handler's decisions as pure functions
  (`Respond`, `Lookup`, `InsertStep`, `GetOutcome`, `Handle`).
- The same file holds the class `Receiver`. Its field `store: map<string, string>`
  stands for the Cassandra table, from column `Email` (the request id) to column
  `Template` (the embeddings). Its methods `ReceiveAndReply`, `ProcessInsert` and
  `ProcessGet` follow the Go code branch by branch. Each is proved equal to the pure
  function for its path.
- `properties.dfy`, module `HandlerProperties`, states what one event does on each
  path.
- `traces.dfy`, module `HandlerTraces`, states what a sequence of events does to the
  table:
  - the set of keys is the starting keys plus the ids written;
  - the last write wins;
  - an insert followed by a get round-trips;
  - an id never written gives a 400.

Some things the outside world decides. They are inputs of the model:

- `Body`: whether the event data decodes into a `Request` (`DataAs`), and the error
  text when it does not;
- `Effects.storeError`: whether the Cassandra call fails (the `INSERT` for an insert,
  the `SELECT` for a get);
- `Effects.encodeError`: whether encoding the reply data fails (`SetData`).

An empty `Response.embeddings` stands for the JSON field left out (`omitempty`).

Two facts about the code shape the model:

- A get does not tell a missing row apart from a failed read. Both give 400
  `"id not found in db"` (cmd/data-controller/main.go:152-155).
- The table's columns are `Email` and `Template` (cmd/data-controller/main.go:62, 121).

## Model

| member | source | states |
|---|---|---|
| `DataController.Respond` | cmd/data-controller/main.go:99-105 | the reply carries spec version `1.0`, the given type, source `data-controller` and the given data exactly when encoding succeeds; an encoding failure is a 500 "failed to set response data: " followed by the error |
| `DataController.Lookup` | cmd/data-controller/main.go:151-155 | a read yields a value exactly when the key is present and the store call does not fail, and then it is the stored value |
| `DataController.InsertStep` | cmd/data-controller/main.go:110-137 | the table becomes `store[id := embeddings]` exactly when the body decodes, id and embeddings are non-empty and the write succeeds, and is unchanged otherwise; the reply is the `"inserter"`/`"Success"` event exactly when, in addition, encoding succeeds; decode and validation failures are 400 and the other failures 500, a write failure with the message "error while inserting data in database: " followed by the error |
| `DataController.GetOutcome` | cmd/data-controller/main.go:139-169 | replies `"Success"` with the stored embeddings exactly when the body decodes, the id is non-empty and present, and neither the read nor encoding fails; only an encoding failure after a successful read is a 500, every other failure a 400 |
| `DataController.Handle` | cmd/data-controller/main.go:88-108 | every event yields a reply, a 400 or a 500; the table changes only on a successful insert, to `store[id := embeddings]`; a reply has source `data-controller`, and type `"inserter"` for insert and get but `"error"` for any other type |
| `DataController.Receiver.constructor` | cmd/data-controller/main.go:14-20 | the receiver starts with the given table contents |
| `DataController.Receiver.ReceiveAndReply` | cmd/data-controller/main.go:88-108 | dispatches on the event type; its result and the new table are those `Handle` gives for the old table |
| `DataController.Receiver.ProcessInsert` | cmd/data-controller/main.go:110-137 | its result and the new table are those `InsertStep` gives for the old table |
| `DataController.Receiver.ProcessGet` | cmd/data-controller/main.go:139-169 | changes nothing and returns what `GetOutcome` gives for the current table; any reply carries the stored embeddings of the requested id |
| `HandlerProperties.UnsupportedType` | cmd/data-controller/main.go:90-107 | a type other than `"insert"` and `"get"` gets the `"error"` reply with message "Error, no supported event type given", or a 500 when encoding fails; the table is unchanged |
| `HandlerProperties.UnsupportedIgnoresBody` | cmd/data-controller/main.go:90-107 | for an unsupported type the answer and the table do not depend on the event body |
| `HandlerProperties.InsertMalformed` | cmd/data-controller/main.go:111-115 | an insert whose body does not decode is a 400 "failed to convert data: ..." with the table untouched |
| `HandlerProperties.InsertInvalid` | cmd/data-controller/main.go:117-119 | an insert with an empty id or empty embeddings is a 400 "id or embeddings cannot be nil" with the table untouched |
| `HandlerProperties.InsertUpserts` | cmd/data-controller/main.go:121-136 | a successful write sets the id to the embeddings whatever it held, adds no other key, keeps every other value, and replies "Success" without embeddings |
| `HandlerProperties.InsertStoreFailure` | cmd/data-controller/main.go:121-124 | a failed write is a 500 "error while inserting data in database: " followed by the error, and the table is unchanged |
| `HandlerProperties.InsertEncodeFailure` | cmd/data-controller/main.go:121-134 | an encoding failure after a successful write is a 500, but the write has taken effect |
| `HandlerProperties.GetReadOnly` | cmd/data-controller/main.go:139-169 | a get never changes the table |
| `HandlerProperties.GetRejectedWithoutReading` | cmd/data-controller/main.go:141-149 | a get whose body does not decode is a 400 "failed to convert data: ...", one whose id is empty a 400 "id cannot be nil"; either answer is the same whatever the table holds and whatever the store call would do |
| `HandlerProperties.GetMiss` | cmd/data-controller/main.go:151-155 | a get of an absent id and a get whose read fails both give 400 "id not found in db" |
| `HandlerProperties.GetHit` | cmd/data-controller/main.go:151-168 | a get of a present id with no failure replies "Success" with the stored embeddings |
| `HandlerTraces.WrittenIds` | cmd/data-controller/main.go:121 | an id is among those a trace writes exactly when some delivery of the trace is a successful insert of it |
| `HandlerTraces.Run` | cmd/data-controller/main.go:121 | after a trace the table holds exactly the keys it held before plus the ids the trace wrote |
| `HandlerTraces.RunSnoc` | cmd/data-controller/main.go:88-95 | handling a trace and then one more event is handling the longer trace |
| `HandlerTraces.RunIsLastWrite` | cmd/data-controller/main.go:121 | after a trace every id holds the embeddings of its last successful insert, or its earlier value if the trace never wrote it (last write wins) |
| `HandlerTraces.UntouchedKeyKept` | cmd/data-controller/main.go:121 | a trace that never writes an id leaves its presence and value unchanged |
| `HandlerTraces.InsertThenGet` | cmd/data-controller/main.go:121-168 | after a successful write of `(id, e)` (its reply encoded or not) and later events that do not write `id`, a get of `id` replies "Success" with `e` |
| `HandlerTraces.SecondInsertWins` | cmd/data-controller/main.go:121-168 | two inserts of the same id followed by a get return the second payload |
| `HandlerTraces.NeverInsertedNotFound` | cmd/data-controller/main.go:151-155 | a get of an id absent at the start and never written is a 400 "id not found in db" |
| `HandlerTraces.GetFindsIffWritten` | cmd/data-controller/main.go:121-168 | with no failures, a get finds a record exactly when the id was present at the start or the trace wrote it |

## Left out

- `main` (cmd/data-controller/main.go:22-50) is left out. It does process start-up,
  reads configuration from the environment, builds the Cassandra session with its
  20-second timeout, and starts the CloudEvents receiver. All of that is I/O and library
  wiring. It also closes the session with `defer` before checking the error, and sets
  the cluster keyspace after the session exists.
- `createCassandraEnvironment` (cmd/data-controller/main.go:52-68) is left out. It sends
  CQL DDL to Cassandra. Running it twice does no harm only because of Cassandra's
  `IF NOT EXISTS`, and it ends the process with `log.Fatal` on failure. Neither can be
  modelled from the code.
- The CQL query text (`fmt.Sprintf` of keyspace and table) is left out. Only the
  abstract write and read of one key are modelled.
- The CloudEvents envelope, JSON encoding and decoding, and content types are left out.
  Decoding and encoding appear only as their success or failure (`Body`, `Effects`).
- `Status` messages that carry a Go error (`"failed to convert data: %s"` and the like)
  are modelled as the prefix followed by the error text. The exact text Go's `%s` gives
  for an error value is not modelled.
- A store call that reports an error is modelled as writing nothing. Cassandra may still
  apply a write whose `Exec` returned an error, for example after a write timeout or the
  20-second client timeout. `InsertStoreFailure`, `Handle`, `Run` and `GetFindsIffWritten`
  rely on this: under the model a failed insert is never visible to a later get.
- Logging (`log.Println`, `log.Printf`) is left out.
- Concurrent delivery of events by the transport is left out. The model handles one
  event at a time.
- The context argument of the handlers is left out. Nothing in the handlers reads it.
- `Response.Id` (cmd/data-controller/main.go:78) is left out. It is never set.
