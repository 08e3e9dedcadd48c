# gxsync connection pool and nacos client cache, modelled in Dafny

This project models two pieces of the dubbogo `gost` library.

The main piece is the admission logic of `gxsync.ConnectionPool`, a pool of workers fed from several bounded task queues:

- `NewConnectionPool` clamps its configuration. It then allocates `NumQueues` channels of capacity `QueueSize` and starts `NumWorkers` workers, binding worker `i` to queue `i % NumQueues`.
- `Submit` refuses a nil task. Otherwise it bumps a `uint32` task counter and tries a non-blocking send on queue `counter % NumQueues`.
- If that queue refuses, `Submit` tries up to `NumQueues / 2` more non-blocking sends on randomly chosen queues. If they all refuse, it returns `PoolBusyErr`.
- `SubmitSync` wraps the task in a closure. It submits the wrapper and passes on `Submit`'s error.

The second piece is the nacos client cache (`NewNacosNamingClient`, `NewNacosConfigClient`). It is a name-keyed map of SDK clients behind a `sync.Once` and a mutex. A shared request returns the cached client or builds and caches a new one. A private request always builds a new client.

Files:

- `wrappers.dfy`: `Option` and `Result`.
- `connection_pool.dfy`: module `GxSync`. It holds the pool state as a value (`PoolState`) with the functions that specify each operation (`Normalize`, `InitialState`, `Dispatched`, `SubmitSpec`), the lemmas about them, and the class `ConnectionPool`. The class's constructor, `Dispatch`, `Submit` and `SubmitSync` change the pool's fields in place. Each is proved to produce exactly the state its specification function gives.
- `nacos_client.dfy`: module `Nacos`. It holds the memoisation rule `Memoize`, its lemmas, and the class `Registry`. `Registry` models the package-level state: the two `sync.Once` flags and the two maps. Its methods are proved against `Memoize`.

How the model stands in for the runtime:

- A queue holds the tasks sent on its channel and not yet received by a worker. Workers never receive in the model, so a handoff to a worker already blocked receiving on a buffered channel is not told apart from buffering: the model appends the task where Go would hand it over and leave the buffer empty. The condition for a send to succeed is unaffected, because a blocked receiver implies an empty buffer.
- `rand.Intn` becomes the input `probes`, which holds the `NumQueues / 2` values it would return.
- A non-blocking send on a buffered channel succeeds when the buffer has room.
- A non-blocking send on an unbuffered channel (`QueueSize` 0) succeeds when a worker bound to that queue is blocked receiving. That readiness is the input `ready`. A successful send of this kind hands the task straight to the worker, so the queue contents do not change (`Push`).
- The SDK factory is the input `factory`: the result `newNamingClient`/`newConfigClient` would return if called. A ghost out-parameter `consulted` records whether it was called.

The random retry makes `len(p.taskQueues)/2` attempts, Go's integer division, so the floor. The model follows the code: `SubmitInputs` asks for `|queues| / 2` probes, and a single queue gets no random probe.

## Model

| member | source | states |
|---|---|---|
| `GxSync.Normalize` | sync/connection_pool.go:46-54 | the clamped configuration has at least one worker, at least one queue and a non-negative queue size. Each field below its minimum becomes the minimum, and a field already valid is kept. |
| `GxSync.InitialState` | sync/connection_pool.go:45-72 | a new pool has exactly `NumQueues` queues, all empty, of capacity `QueueSize`, and a zero counter. It has `NumWorkers` workers, worker `i` bound to queue `i % NumQueues`, and it satisfies the pool invariant. |
| `GxSync.InitialStateFrom` | sync/connection_pool.go:56-59 | any `NumQueues` empty buffers, with the clamped size and the dispatched workers, are the initial pool |
| `GxSync.ConnectionPool.constructor` | sync/connection_pool.go:45-72 | the constructor's queue-allocation loop and its dispatch build exactly `InitialState(config)` |
| `GxSync.Dispatched` | sync/connection_pool.go:78-82 | dispatching `count` workers starts exactly `count` of them |
| `GxSync.DispatchedAt` | sync/connection_pool.go:79-81 | worker `i` has id `i` and is bound to queue `i % n`, which lies in `[0, n)` |
| `GxSync.DispatchedCount` | sync/connection_pool.go:78-82 | queue `q` gets `count / n` workers, plus one if `q < count % n`. So with fewer workers than queues, the higher queues have none. |
| `GxSync.DispatchBalanced` | sync/connection_pool.go:78-82 | the per-queue worker counts differ by at most one |
| `GxSync.ConnectionPool.Dispatch` | sync/connection_pool.go:78-82 | the loop appends the workers `Dispatched(numWorkers, n)` to those already started, and none for a negative count |
| `GxSync.Inc` | sync/connection_pool.go:90 | `atomic.AddUint32(&taskId, 1)` is the increment modulo 2^32 |
| `GxSync.RoundRobin` | sync/connection_pool.go:92 | the round-robin index lies in `[0, n)` |
| `GxSync.RoundRobinAdvances` | sync/connection_pool.go:89-92 | successive counter values pick successive queues cyclically until the counter wraps |
| `GxSync.HasWorker` | sync/connection_pool.go:78-82 | some started worker receives from the queue; a queue with a worker is one of the pool's queues |
| `GxSync.OpenRespectsCapacity` | sync/connection_pool.go:91-95 | `Open` is the definition of when a `select` send with a `default` succeeds (room in a buffered queue; `ready` and a bound worker for an unbuffered one). A send it admits never overfills a buffer, and a buffered queue refuses only when it is full. |
| `GxSync.UnboundQueueRefuses` | sync/connection_pool.go:78-82 | in a new pool, queue `q` has a worker exactly when `q` is below the worker count, so an unbuffered queue beyond the workers refuses every send |
| `GxSync.Push` | sync/connection_pool.go:92 | a successful send appends the task at the tail of its own queue (an unbuffered one hands it over and stays empty) and leaves every other queue unchanged |
| `GxSync.Attempts` | sync/connection_pool.go:91-105 | the at most `1 + n/2` queues a non-nil Submit tries, in order: first the round-robin queue of the incremented counter, then the random draws. Submit stops at the first that accepts. |
| `GxSync.FirstOpen` | sync/connection_pool.go:91-105 | the chosen position is the first one in the attempt order whose send succeeds. No position before it accepts, and no position at all accepts when none is chosen. |
| `GxSync.FirstOpenAt` | sync/connection_pool.go:91-105 | the first accepting position is the one `FirstOpen` returns |
| `GxSync.SubmitSpec` | sync/connection_pool.go:84-108 | Submit keeps the pool invariant, so no queue exceeds its capacity. It never changes the workers or the capacity. It reports the nil-task error exactly for a nil task, and it reports no error exactly when some queue took the task. |
| `GxSync.SubmitRejectsNil` | sync/connection_pool.go:85-87 | a nil task returns the error and leaves the queues and the counter unchanged, with no send attempted |
| `GxSync.SubmitAdvancesCounter` | sync/connection_pool.go:90-105 | a non-nil task moves the counter exactly once, whatever the outcome. It makes between 1 and `1 + n/2` attempts, and exactly one when there is a single queue. When the round-robin queue `(old+1 mod 2^32) % n` accepts, that queue takes the task on the first attempt. |
| `GxSync.SubmitAdmits` | sync/connection_pool.go:91-104 | on success, the queue that took the task is the first accepting one in the attempt order. A buffered queue gains the task at its tail (an unbuffered one hands it over and stays as it was), and all other queues are unchanged. |
| `GxSync.SubmitBusy` | sync/connection_pool.go:97-107 | busy is returned only after all `1 + n/2` attempts were refused, and then no queue changes |
| `GxSync.SubmitSpecFirst` | sync/connection_pool.go:89-93 | when the round-robin queue accepts, Submit returns no error after one attempt, with the task pushed there |
| `GxSync.SubmitSpecProbe` | sync/connection_pool.go:97-104 | when probe `i` is the first to accept, Submit returns no error after `i + 2` attempts, with the task pushed on that probe's queue |
| `GxSync.SubmitSpecRefuses` | sync/connection_pool.go:97-107 | when every attempt is refused, Submit returns `PoolBusyErr` and changes only the counter |
| `GxSync.ConnectionPool.Submit` | sync/connection_pool.go:84-108 | the method with its early returns and bounded probe loop returns `SubmitSpec`'s error and leaves exactly `SubmitSpec`'s state, keeping the pool invariant |
| `GxSync.ConnectionPool.SubmitSync` | sync/connection_pool.go:110-120 | SubmitSync returns exactly the error Submit gives for the wrapper. It never reports a nil task, because the wrapper is never nil, and it always moves the counter. |
| `GxSync.FullPoolIsBusy` | sync/connection_pool.go:84-107 | in a buffered pool whose every queue is full, any non-nil task gets `PoolBusyErr` for any random draws, and only the counter changes |
| `GxSync.SubmitIntoEmptyQueue` | sync/connection_pool.go:89-93 | with capacity one, a task whose round-robin queue is empty fills that queue |
| `GxSync.FourQueuesFirstTwo` | sync/connection_pool.go:84-93 | in a new pool of 4 workers and 4 queues of capacity 1, provided no worker has received any task, the first two submissions land in queues 1 and 2 on their first attempt |
| `GxSync.FourQueuesNextTwo` | sync/connection_pool.go:84-93 | in the same pool, the next two land in queues 3 and 0 on their first attempt, filling every queue |
| `GxSync.FourQueuesFill` | sync/connection_pool.go:84-93 | in that pool, provided no worker has received any task, four back-to-back submissions land in queues 1, 2, 3, 0 |
| `GxSync.FourQueuesScenario` | sync/connection_pool.go:84-107 | in that pool, provided no worker has received any task, a fifth submission after those four is refused as busy after 3 attempts whatever the random draws, and only the counter moves |
| `GxSync.Int32Of` | sync/connection_pool.go:92 | `int(taskId)` with a 32-bit `int` lies in the `int32` range and agrees with the counter modulo 2^32 |
| `GxSync.GoRem` | sync/connection_pool.go:92 | Go's truncating `%` equals Dafny's `%` for a non-negative dividend, in `[0, n)`, and lies in `(-n, 0]` for a negative one |
| `GxSync.GoRemNegate` | sync/connection_pool.go:92 | Go's `%` is odd in its dividend, `(-a) % n == -(a % n)`, which with the case above fixes every value |
| `GxSync.RoundRobinIndex32` | sync/connection_pool.go:92 | the index as written with a 32-bit `int` lies in `(-n, n)` and equals `RoundRobin` while the counter is below 2^31 |
| `GxSync.RoundRobinIndex32Negative` | sync/connection_pool.go:92 | with a 32-bit `int`, the index as written is never positive once the counter reaches 2^31. For three queues the counter value 2^31 gives index -2. |
| `GxSync.RoundRobinIndex64Agrees` | sync/connection_pool.go:92 | with a 64-bit `int`, the index as written equals `RoundRobin` and lies in `[0, n)` |
| `Nacos.Memoize` | database/kv/nacos/client.go:60-75 | the factory is called exactly when the request is private or the name is not cached, and then its result is returned as-is. Otherwise the cached client is returned. Cached entries are never replaced or dropped. The only entry that can appear is the successful client of a shared request under its name, so failures are never cached. After a successful shared request the cache holds the returned client. |
| `Nacos.CachedEntryIsStable` | database/kv/nacos/client.go:64-75 | once a name is cached, no later sequence of naming (or config) requests changes its client |
| `Nacos.SharedRequestIsIdempotent` | database/kv/nacos/client.go:66-75 | after a successful shared request for a name, every later shared request for it, after any other calls and whatever the factory would return, yields the same client without calling the factory and without changing the cache |
| `Nacos.Registry.constructor` | database/kv/nacos/client.go:32-37 | at program start neither `sync.Once` has run and both maps are empty |
| `Nacos.Registry.InitNacosClientPool` | database/kv/nacos/client.go:49-51 | the naming map becomes an empty map |
| `Nacos.Registry.InitNacosConfigClientPool` | database/kv/nacos/client.go:53-55 | the config map becomes an empty map |
| `Nacos.Registry.NewNacosNamingClient` | database/kv/nacos/client.go:58-76 | returns `Memoize`'s result and leaves `Memoize`'s cache. It calls the factory exactly when `Memoize` does. Its Once has run after any shared call, and a private call does not run it. It never touches the config cache. |
| `Nacos.Registry.NewNacosConfigClient` | database/kv/nacos/client.go:79-97 | the same rule for the config map: it leaves `Memoize`'s cache, runs its Once on the first shared call, and never touches the naming cache |

## Left out

- Worker goroutines, the worker loop that receives and runs tasks, panic recovery, `sync.WaitGroup` and shutdown are concurrency in code that is not part of this model (`newWorker` is in the base pool file). A worker appears only as its queue binding and its id, so queues only ever grow in the model.
- The blocking `<-done` wait in `SubmitSync` is not modelled. Only the error it returns is.
- `rand.Intn` is an input sequence of in-range values. The model makes no probability or fairness claim.
- `atomic.AddUint32` is a sequential increment modulo 2^32. Concurrent submitters are not modelled.
- Rendezvous on an unbuffered channel appears only through the `ready` flag per queue.
- A send on a buffered channel to a worker already blocked receiving is a direct handoff in Go, leaving the buffer empty. The model does not tell it apart from buffering and appends the task, so its queue contents are an upper bound on Go's buffer once workers have started receiving. The scenario lemmas hold only for a pool in which no worker has received any task.
- `sync.Mutex` and `sync.Once` are represented by atomic method bodies and a boolean per Once.
- The logger in `ConnectionPoolConfig` and in the base pool is left out. So are the nacos SDK clients, the `vo.NacosClientParam` construction, and the server and client configuration passed to them, which only reach the factory.
- net/conncheck.go, a raw-socket liveness probe, is OS I/O and is not part of this model.
- `TaskPool` (`AddTask`, `AddTaskAlways`, `AddTaskBalance`, `AddCallbackTask`, `Close`) is a second admission strategy of the package and is not modelled here.
- `GxSync.RoundRobin`: its contract states only the range of the index. Its value, the counter modulo the queue count, is pinned down by `RoundRobinAdvances`, `RoundRobinIndex64Agrees` (with `GoRem`'s value) and the scenario lemma.

## Findings

| source | as written | input that shows it | evidently intended | confidence | as-written member | corrected member |
|---|---|---|---|---|---|---|
| sync/connection_pool.go:92 | `int(taskId)%len(p.taskQueues)` converts the `uint32` counter to `int` before taking the remainder | on a platform where Go's `int` is 32 bits wide, with 3 queues, the 2^31-th non-nil submission: `int(0x80000000)` is -2^31, and -2^31 % 3 is -2, so the index is out of range and the send panics | the index is the unsigned counter modulo the queue count, always in `[0, n)` (what a 64-bit `int` gives) | not executed; only on platforms where Go's `int` is 32 bits | `GxSync.RoundRobinIndex32`, `GxSync.RoundRobinIndex32Negative` | `GxSync.RoundRobin` |
