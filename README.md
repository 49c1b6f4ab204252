# pollingworkermodel in Dafny

This project models a pull-based job queue and proves properties of the model. A queue server keeps job records in memory. Workers poll it over HTTP for new jobs (`GET …/jobs`), run each job through a user function and post the finished record back (`POST …/results`). A record's status moves `new → pending → complete | error`. `not-exist` is the answer for an unknown id.

The model runs sequentially: one caller acts at a time.

| module | file | models |
|---|---|---|
| `Types` | Types.dfy | common/types.go: the status strings, the record `Job<J, R>`, the auth header name, and the record's JSON shape at member level (omitempty, zero values for missing members) |
| `Queue` | Queue.dfy | server/queue.go: class `QueueServer` with the store as a `map` field, updated in place by each operation; `NewJobs` is a loop over the keys |
| `Http` | Http.dfy | server/http.go: `filepath.Base`, the routing decision, the two handlers and `ServeHTTP` acting on a `QueueServer` |
| `Options` | Options.dfy | client/options.go: the defaults, the four options, and `NewOptions` as a loop that folds the options over the defaults |
| `Worker` | Worker.dfy | client/worker.go: class `QueueWorker` with its two buffers as `seq` fields; one fetch tick, one submit pass, the completion of a record, and the requests the worker builds |
| `Protocol` | Protocol.dfy | one job's whole trip through server and worker |
| `Wrappers` | Wrappers.dfy | `Option`, standing for Go's nil pointer or `(value, ok)` |

The program's inputs become parameters of the model:
- The id that `shortid.MustGenerate()` would give is a parameter of `NewJob`.
- Whether encoding or writing the GET response works is a parameter `writeOk`.
- A request body is given as the members the JSON decoder sees, each tagged by the record field it fills (see `Types.Decode` under "## Left out").
- Each HTTP exchange of the worker is a `FetchOutcome` or a `PostOutcome`.
- Whether `url.Parse` succeeds is a parameter `urlOk`.
- A type's zero value and its `omitempty` test are part of a `Codec`.

Some behaviours of the code are worth stating, because the model follows the code in each case:
- A fetch that finds no New record returns a nil slice. The slice encodes as JSON `null`, not `[]` (`EncodeBatch([])` is `Null`). The worker decodes `null` as an empty batch.
- `NewJobs` appends the stored pointer and then flips its status. So the records handed out already read `pending`.
- Nothing forbids storing a record whose status is `not-exist`. `POST /results` stores any decoded record. For such an id, `CheckJob` reports `not-exist` and the wait step reports the id as absent, although the id is present. The unconditional contracts say so. The "not-exist exactly when absent" form holds under `NoSentinel`.
- Posting the JSON literal `null` leaves the decoded pointer nil. `UpdateJob` then dereferences it and the handler panics (`Aborted`, store unchanged).
- A missing auth header reads as `""`. So a server whose secret is empty accepts requests that carry no header.
- The processing function's returned error becomes an `error` record. A panic inside it is not recovered.
- If writing the GET response fails, the records handed out stay `pending` in the store. No worker has them.

## Model

| member | source | states |
|---|---|---|
| `Types.WorkerAuthHeaderIsAName` | common/types.go:13 | server and worker share the one header name `X-Worker-Authorization`, which is non-empty and holds no slash or colon |
| `Types.StatusesDistinct` | common/types.go:3-11 | there are five named statuses, their wire strings are pairwise distinct, and only `complete` and `error` are terminal |
| `Types.Encode` | common/types.go:15-21 | the encoded record has members `id`, `status`, `error` and `job` always, and `result` exactly when the result is not empty, each carrying the record's field |
| `Types.Decode` | common/types.go:15-21 | decoding succeeds exactly when each of the five members is missing or of the right kind; then each field of the record is its member's value, or the zero value (`""`, the zero payload, the zero result) when the member is missing |
| `Types.DecodeIgnoresUnknown` | common/types.go:15-21 | adding or changing a member whose name matches none of the five the record knows, ignoring case, leaves the decode unchanged |
| `Types.DecodeEncode` | common/types.go:16-20 | for payload and result types with a lossless JSON form, decode after encode gives the record back, except that a result dropped by omitempty comes back as the zero result; a result that survives omitempty makes the round trip exact |
| `Types.EncodeBatch` | server/http.go:33-39 | the list of fetched records encodes to `null` exactly when it is empty, otherwise to an array of the encoded records in order |
| `Types.DecodeAll` | client/worker.go:112-115 | decoding an array succeeds exactly when every element decodes; then the list has one record per element, in order |
| `Types.DecodeBatch` | client/worker.go:112-115 | `null` decodes to the empty list; an array decodes exactly when every element does, to one record per element in order |
| `Types.BatchRoundTrip` | client/worker.go:112-119 | for payload and result types with a lossless JSON form and when every result survives omitempty, what the server encodes for a fetch, the worker decodes to the same list of records |
| `Queue.QueueServer.constructor` | server/queue.go:14-19 | a new server has an empty store and the given secret |
| `Queue.QueueServer.NewJob` | server/queue.go:21-34 | returns the given id; the store then maps it to a record with status `new`, empty error, the payload and the zero result; every other entry is unchanged; a fresh id adds exactly one key |
| `Queue.QueueServer.AddJob` | server/queue.go:36-38 | the entry at the record's id becomes the record, with no check of any kind; every other entry is unchanged |
| `Queue.QueueServer.RemoveJob` | server/queue.go:40-42 | the id is absent afterwards, every other entry is unchanged, and removing an absent id changes nothing |
| `Queue.QueueServer.GetJob` | server/queue.go:44-46 | finds a record exactly when the id is present, and then it is the stored record |
| `Queue.QueueServer.UpdateJob` | server/queue.go:48-50 | the entry at the record's id becomes the record, with no existence or status check; every other entry is unchanged |
| `Queue.QueueServer.CheckJob` | server/queue.go:52-59 | returns `not-exist` for an absent id and the stored status otherwise; with no stored sentinel, `not-exist` exactly when the id is absent |
| `Queue.QueueServer.WaitStep` | server/queue.go:61-73 | one pass of the wait loop: absent when the status reads `not-exist`; finished, with the stored record, exactly when the status is `complete` or `error`; otherwise keep polling |
| `Queue.QueueServer.AddWaitJob` | server/queue.go:75-79 | creates the record as `NewJob` does, and the first wait step on it keeps polling, since a new record is not terminal |
| `Queue.QueueServer.NewJobs` | server/queue.go:81-95 | the store becomes `Promote` of the old store, and the result holds every record that was `new`, once each, as it is now stored |
| `Queue.NewIdsUpdate` | server/queue.go:21-38 | writing one entry changes the set of waiting (`new`) ids at that key only: the key is in it exactly when the written record is `new` |
| `Queue.PromoteEffect` | server/queue.go:84-92 | a fetch keeps the key set, turns each `new` record into the same record with status `pending`, leaves every other record as it was, and only moves statuses forward |
| `Queue.PromoteLeavesNoNew` | server/queue.go:84-92 | after a fetch no stored record is `new`, and a second fetch does not change the store |
| `Queue.SecondFetchIsEmpty` | server/queue.go:81-95 | a fetch right after a fetch hands out the empty list |
| `Queue.FetchedCount` | server/queue.go:81-95 | a fetch hands out as many records as there were `new` ones, each with status `pending` |
| `Http.HeaderGet` | server/http.go:13 | the header's value when present, `""` when missing |
| `Http.Base` | server/http.go:18 | the base is never empty, is `.` for the empty path, and is `/` or holds no slash |
| `Http.BaseOfSuffix` | server/http.go:18 | the base of `prefix/seg` is `seg` for any prefix, when `seg` is a non-empty element without a slash |
| `Http.BaseIgnoresTrailingSlash` | server/http.go:18 | a trailing slash does not change the base of a non-empty path |
| `Http.RouteOf` | server/http.go:12-31 | unauthorized exactly when the header differs from the secret; with the right secret, fetch for `GET` with base `jobs`, post for `POST` with base `results`, not found for anything else |
| `Http.RouteByBase` | server/http.go:18-28 | two requests that agree on the header, the method and the path's base get the same route |
| `Http.RouteIgnoresPrefix` | server/http.go:18 | `/a/b/jobs` is routed like `/jobs`, and the same holds for any prefix and last element |
| `Http.MissingHeaderMeansEmptySecret` | server/http.go:13-16 | a request without the header passes the check exactly when the secret is empty |
| `Http.DecodePosted` | server/http.go:41-48 | a posted body yields a record exactly when it is a JSON object that decodes; `null` yields a nil record; anything else is a decode error |
| `Http.GetNewJobsHandler` | server/http.go:33-39 | the store is promoted and the handed-out records are exactly the former `new` ones; the response is their encoding, or an internal error if encoding or writing fails (the flip to pending stays) |
| `Http.PostJobResultsHandler` | server/http.go:41-51 | a decoded record overwrites the entry at its id; a decode error gives an internal error and leaves the store unchanged; a `null` body aborts the handler with the store unchanged |
| `Http.ServeHTTP` | server/http.go:12-31 | a wrong secret gives unauthorized with the store unchanged; a fetch route runs the fetch; a post route runs the overwrite; any other route is not found with the store unchanged |
| `Options.Apply` | client/options.go:32-54 | each of the four `With*` options sets its own field to its argument and leaves the other three fields unchanged |
| `Options.NewOptions` | client/options.go:17-30 | the result is the defaults with the options applied in argument order |
| `Options.NoOptionsGiveDefaults` | client/options.go:18-23 | with no options the tick rate is 100ms (100000000ns), both buffer sizes are 100 and the client is the default client |
| `Options.ApplyAlgebra` | client/options.go:32-54 | an option applied twice is applied once; options on different fields commute; of two options on one field the later one wins |
| `Options.LastWins` | client/options.go:25-27 | when no later option sets the same field, the configured field has the value `options[i]` gave it |
| `Options.UnsetFieldKeepsDefault` | client/options.go:17-27 | a field that no option sets keeps its default |
| `Worker.Completed` | client/worker.go:57-65 | an error outcome gives status `error` with the message and the result untouched; success gives status `complete` with the result and the error untouched; id and payload never change |
| `Worker.CompletedAdvances` | client/worker.go:58-65 | completing a `pending` record is a forward, terminal step of the life cycle |
| `Worker.Batch` | client/worker.go:86-115 | a tick yields a batch exactly when the exchange delivered a body that decodes, and the batch is the decoded list |
| `Worker.FetchRequest` | client/worker.go:88-94 | the fetch request is a `GET` with no body whose auth header carries the worker's secret |
| `Worker.PostRequest` | client/worker.go:128-140 | the submit request is a `POST` whose auth header carries the worker's secret and whose body decodes to the record, with a result that omitempty dropped coming back as the zero result |
| `Worker.FetchRequestRoutes` | client/worker.go:88-94 | the worker's fetch request is routed to the fetch handler exactly when its secret equals the server's, and is unauthorized otherwise, for a secret the transport carries unchanged |
| `Worker.PostRequestDelivers` | client/worker.go:128-140 | the worker's submit request reaches the result handler exactly when the secrets agree, for a secret the transport carries unchanged; for a record whose result survives omitempty, its body decodes to exactly that record |
| `Worker.NewQueueWorker` | client/worker.go:24-51 | fails exactly when the URL does not parse (for buffer sizes the runtime can allocate); missing options mean `NewOptions()`; the tick rate, client and buffer capacities are the configured ones; both buffers start empty |
| `Worker.QueueWorker.constructor` | client/worker.go:37-45 | the buffer capacities are the configured sizes and both buffers are empty |
| `Worker.QueueWorker.GetNewJob` | client/worker.go:72-74 | returns the oldest buffered job and removes it (first in, first out) |
| `Worker.QueueWorker.PostJobResult` | client/worker.go:76-78 | appends the record to the result buffer |
| `Worker.QueueWorker.ProcessOne` | client/worker.go:53-70 | the oldest job leaves the job buffer and its completed record is appended to the result buffer once |
| `Worker.QueueWorker.ProcessJobs` | client/worker.go:53-70 | when the result buffer has room for every buffered job, every buffered job is processed, and its completed record is appended once, in buffer order |
| `Worker.QueueWorker.FetchTick` | client/worker.go:80-122 | a batch that decodes is appended to the job buffer in list order with nothing dropped; on any failure nothing is enqueued |
| `Worker.QueueWorker.PostTick` | client/worker.go:124-149 | the oldest record leaves the result buffer whatever the outcome, and is never requeued; a request is handed to the transport exactly when marshalling and building the request worked |
| `Protocol.FetchOfOnlyNew` | server/queue.go:81-95 | a fetch from a store whose only `new` record is at one id hands out exactly that record, as `pending`, whatever else the store holds |
| `Protocol.PromoteOnlyNew` | server/queue.go:84-92 | on such a store the fetch changes that one entry, to `pending`, and nothing else |
| `Protocol.FetchOne` | server/http.go:33-39 | on such a store an authorized fetch leaves that record `pending` and, when its result survives omitempty, answers with a body the worker decodes to exactly that record |
| `Protocol.CreateAndFetch` | server/queue.go:21-34 | on a store with no `new` record, creating a job and then fetching hands out exactly the new record, as `pending`, and the store holds it so |
| `Protocol.WorkerCycle` | client/worker.go:53-149 | an idle worker with room in both buffers that receives one job processes it and hands the submit request for its completed record to the transport, and is idle again |
| `Protocol.DeliverResult` | server/http.go:41-51 | a submit with the server's secret, carried unchanged by the transport, for a record whose result survives omitempty, overwrites the entry at its id and answers OK |
| `Protocol.RoundTrip` | server/queue.go:61-79 | on a server with no `new` record waiting (the id may be fresh or taken) and an idle worker with room in both buffers and the server's secret, carried unchanged by the transport, a job that is created, fetched, processed and posted back is then seen finished by the wait step: `complete` with the function's result, or `error` with its message and the zero result; the store changes at that id only. A successful result must survive omitempty |

## Left out

- Goroutines, the ticker and blocking channel operations are not modelled. A full send and an empty receive become preconditions. The loops become single steps (`FetchTick`, `PostTick`, `ProcessOne`) that a caller schedules.
- An unbuffered channel (capacity 0) lets a sender meet a receiver. Here it is a buffer with no room, never usable.
- Unbounded fan-out in `ProcessJobs` is not modelled: each job's goroutine runs to completion at once. So results come out in buffer order, where the program gives no order. The endless loop is modelled as draining the current buffer.
- The `WaitJob` spin loop is modelled as one pass (`WaitStep`, giving a `WaitOutcome`). With one caller at a time the store cannot change, so more passes add nothing.
- The concurrent map is modelled as a plain `map`. Two concurrent `NewJobs` calls can hand the same record to two workers; a sequential model cannot show this race.
- `shortid.MustGenerate()` is a parameter. A repeated id silently overwrites the old record (see `NewJob`).
- The HTTP transport, request construction, body reading and closing, response writing and logging are out. Their outcomes are parameters. A failed `Body.Close()` is only logged, so it has no effect here.
- `url.Parse` is a boolean. The queue URL stands for the URL path the server sees. A query string or fragment, which would swallow the appended `/jobs`, is not modelled.
- `Header.Get` key canonicalisation is out. Header names are taken as given. A header holds one value here; in the program it may hold several, and only the first of several values of a header counts, so a request carrying the auth header twice with a wrong first value is unauthorized. That request cannot be expressed.
- The JSON byte format is out. These decoder behaviours are not modelled: case-insensitive member names, `null` member values, `null` elements inside the fetched array, and JSON numbers. What makes `json.Marshal` fail is an outcome parameter.
- `filepath.Base` is modelled for slash-separated paths. Windows volume names are out.
- `Worker.NewQueueWorker`: `time.Duration` counts nanoseconds here and is a natural number. A non-positive tick rate makes `time.NewTicker` panic in the fetch loop and crash the program. The model accepts a rate of 0 (`WithGetJobsTickRate(0)`) and builds a worker with it. A negative rate cannot be expressed.
- `Worker.NewQueueWorker`: `http.Client` identity is abstracted to `DefaultClient` or a numbered `Client`. A nil `*http.Client` (from `WithHttpClient(nil)` or an `&Options{}` built by hand) cannot be expressed. In the program it panics on the first `Do` call (client/worker.go:96, 142).
- `Worker.NewQueueWorker`: buffer sizes are any 64-bit unsigned value, and the model builds the worker for every one of them. In the program, `make(chan …, n)` (client/worker.go:42-43) panics with "makechan: size out of range" when `n` exceeds the largest `int`, or when `n` times the element size overflows or passes the allocation limit. Well below that, a large `n` ends the program with an out-of-memory error. For those sizes the program crashes, while the model returns a worker (for example with `jobCapacity == 2^62`). So "fails exactly when the URL does not parse" holds only for sizes the runtime can allocate.
- `Types.DecodeEncode`, `Types.BatchRoundTrip`: the payload and result travel on the wire as the values themselves (`Payload(j)`, `ResultValue(r)`), so the model takes `J` and `R` to have a lossless JSON form, and every string to be valid Unicode. In Go the round trip also loses these: unexported struct fields, which come back as zero values; values in `any` fields, which come back as `map[string]any` or `float64`; and invalid UTF-8 in strings, such as an error message, which comes back with U+FFFD. The exact round trips, and everything built on them (`Worker.PostRequest`, `Worker.PostRequestDelivers`, `Protocol.FetchOne`, `Protocol.CreateAndFetch`, `Protocol.RoundTrip`), hold only for such types and strings.
- `Options.Apply`: `Option` is an open function type (client/options.go:15), so a caller may pass any closure, for example one that doubles `JobChannelBufferSize`. The model has only the four `With*` options. `Options.ApplyAlgebra` and `Options.LastWins` are proved for those four only. A custom closure need not be idempotent, nor let the last option win.
- A panic in the user's processing function, which the program does not recover, is not modelled.
- `Queue.QueueServer.GetJob`, `AddJob`, `UpdateJob`, `NewJobs`: the store holds `*common.Job` pointers, and `GetJob`, `WaitJob` and `AddWaitJob` hand out the stored pointer. The model stores records as values. Mutation through a shared pointer is not modelled: for example, changing a stored record's `ID` through the pointer, after which `NewJobs` files it under a second key. `KeyedById` holds only because every write goes through a value. A nil record, which makes `AddJob`, `UpdateJob` and `RemoveJob` panic, cannot be passed. The only nil record the handlers can produce is the posted `null`, and that one is modelled (`Aborted`).
- `Worker.QueueWorker.ProcessJobs`: the precondition asks for room in the result buffer for every buffered job. A backlog larger than the free result room is not covered by this method. The program works such a backlog off, each goroutine's send waiting until the submit loop drains the result buffer (client/worker.go:67, 77). In the model that state is reached only by interleaving `ProcessOne` and `PostTick`.
- `Types.Decode`, `Http.DecodePosted`: a member value is tagged by the record field it fills (`Str` for `id`, `status` and `error`, `Payload` for `job`, `ResultValue` for `result`). A JSON value that the field's type can hold is written with that field's tag. `Str` under `job` or `result`, or `Payload` under `id`, stands only for a value that field cannot hold. So for a payload type `string`, the body `{"job":"x"}` is `Payload("x")` under `job`, which decodes, and not `Str("x")`, which would be a decode error.
- `Worker.QueueWorker.FetchTick`: the precondition asks for room in the job buffer for the whole batch. The program sends job by job and blocks part-way when the buffer fills, for example with capacity 1 and two jobs, or more than 100 jobs at the default size. That blocked, partly delivered state is not modelled.
- `Worker.FetchRequestRoutes`, `Worker.PostRequestDelivers`, `Protocol.DeliverResult`, `Protocol.RoundTrip`: the transport is taken to carry the auth header value unchanged from the worker (client/worker.go:94, 140) to the server's `Header.Get` (server/http.go:13). Go's HTTP/1.1 stack does not always do so, and three cases are not modelled. A value with a control character other than tab, such as a secret read from a file with its trailing newline, makes `Do` fail on every request, so no job is ever fetched or submitted. The client writes the value with leading and trailing spaces and tabs trimmed, and the server's header reader trims them again. So a worker secret `"s "` is authorized by a server whose secret is `"s"`, where the model says unauthorized. And a server secret with leading or trailing space or tab, such as `" s"`, authorizes no request at all, where the model completes the round trip.
- `Protocol.RoundTrip` assumes that no other `new` record is waiting, and an idle worker. With other records waiting, the fetch hands those out too, and the ones buffered ahead of the new job would be processed first.
