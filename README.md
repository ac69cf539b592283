# Queue broker model

A Dafny model of the in-process message broker in `queue_broker.go`. The
broker keeps a registry that maps queue names to bounded FIFO channels of text
messages. It enforces two limits:

- a ceiling (`maxQueues`) on the number of distinct queue names;
- a fixed per-queue capacity (`maxQueueSize`).

`PutMessage` creates a queue the first time a name is used, unless the
registry is already at its ceiling. It then pushes the message without
blocking, or fails with "queue is full". `GetMessage` fails at once on an
unknown name. Otherwise it pops the head of the queue, or reports "not found"
when nothing arrives before the timeout.

The project has three modules:

- `BrokerSpec` (`broker_spec.dfy`) states the broker as values. The registry is
  a `map<string, seq<string>>` with the oldest message first. `Put` and `Get`
  map the registry before a call to the result and the registry after it.
  `Valid` is the broker invariant: every queue fits its capacity, and the
  registry holds at most `max(0, maxQueues)` names.
- `Broker` (`queue_broker.dfy`) holds the `QueueBroker` class. Its `queues`
  field is changed in place by `PutMessage` and `GetMessage`. Each method is
  proved equal to `Put` or `Get` on the old registry, and to keep `Valid()`.
  Beside the class are client methods that run short call sequences on a
  fresh broker and prove their outcomes. Two of them follow tests in
  `queue_broker_test.go`; the others exercise the empty-queue and capacity
  cases of `queue_broker.go`.
- `BrokerRuns` (`broker_runs.dfy`) runs sequences of calls one after another.
  It proves the properties that span several calls:
  - FIFO delivery under any interleaving of puts and gets;
  - the capacity bound;
  - the invariant over any run;
  - a registry that only grows, and only through puts.

Each call is modelled as atomic. In a sequential model, a wait that times out
is the same as "the queue was empty at call time".

The model follows the code in these cases:

- A new name is refused when `len(queues) >= maxQueues` (queue_broker.go:38),
  not only at equality. So with `maxQueues <= 0` no queue is ever created.
- The queue is registered before the push is tried (queue_broker.go:42-44). So
  with capacity 0, a put to a new name fails with "queue is full" and still
  leaves the empty queue registered. A rejected put is therefore not free of
  side effects in that case.
- The test at queue_broker_test.go:97-115 expects "not found" (404) for a name
  nobody has put to. The code answers "queue does not exist" there
  (queue_broker.go:60-62), and so does the model (`Broker.MissingThenTimeout`).

## Model

| member | source | states |
|---|---|---|
| `BrokerSpec.Put` | queue_broker.go:34-52 | A put fails with "maximum number of queues reached" exactly when the name is unregistered and the registry holds `maxQueues` or more names; the registry is then unchanged. A registered name never hits that limit. Past the ceiling check, the name is registered even if the push fails. A put fails with "queue is full" exactly when the queue already holds `maxQueueSize` messages, and its contents stay unchanged. A successful put appends the message at the tail. No other queue changes. |
| `BrokerSpec.PutKeepsValid` | queue_broker.go:38-47 | A put keeps every queue within `maxQueueSize`, because a message is pushed only below capacity. It keeps the registry within its ceiling, because a name is added only while fewer than `maxQueues` are registered. |
| `BrokerSpec.Get` | queue_broker.go:55-70 | A get never adds or removes a name. It fails with "queue does not exist" exactly on an unregistered name. It answers "not found" exactly on a registered, empty queue. Otherwise it returns the head and leaves the rest of the queue. On failure nothing changes, no other queue changes, and the invariant is preserved. |
| `Broker.QueueBroker.constructor` | queue_broker.go:24-31 | A new broker has an empty registry and stores the three settings unchanged. It satisfies the invariant. |
| `Broker.QueueBroker.PutMessage` | queue_broker.go:34-52 | The in-place update produces the result and registry that `BrokerSpec.Put` gives for the old registry, and keeps the invariant. |
| `Broker.QueueBroker.GetMessage` | queue_broker.go:55-70 | The in-place update produces the result and registry that `BrokerSpec.Get` gives for the old registry, and keeps the invariant. |
| `Broker.PutThenGet` | queue_broker_test.go:64-93 | On a fresh broker, a put to a new name succeeds and a get from that name returns the same message. |
| `Broker.MissingThenTimeout` | queue_broker_test.go:118-135 | A get on a never-used name fails with "queue does not exist". After a put and a get, one more get on the now-empty queue answers "not found". |
| `Broker.OneQueueCeiling` | queue_broker_test.go:139-161 | With `maxQueues = 1`, a second distinct name is refused with the queue-limit error. The first name still accepts messages. |
| `Broker.CapacityOne` | queue_broker.go:46-51 | With capacity 1, a second put fails with "queue is full". After a get, the get returns the first message and a put succeeds again. |
| `BrokerRuns.RunAppend` | queue_broker.go:34-70 | Calls are applied one after another: running one sequence of calls and then a second gives the same replies, and the same final registry, as running the two together. |
| `BrokerRuns.RunPreservesValid` | queue_broker.go:38-47 | Any sequence of puts and gets keeps every queue within `maxQueueSize`. It also keeps the number of queues within `maxQueues` (and at zero when `maxQueues` is negative). |
| `BrokerRuns.RunKeys` | queue_broker.go:38-62 | Across any sequence of calls the registry never loses a name. Every name it gains is the target of some put; a get never registers one. |
| `BrokerRuns.RunLeavesOthers` | queue_broker.go:42-66 | A queue that no call in a sequence names is neither created nor changed by it. |
| `BrokerRuns.PutAccepted` | queue_broker.go:38-48 | A put to a name that is registered, or that still fits under the ceiling, on a queue below capacity, succeeds. It grows that queue by exactly the message. |
| `BrokerRuns.PutsAppend` | queue_broker.go:42-48 | Puts that fit in the channel all succeed. They append their messages at the tail in call order. |
| `BrokerRuns.GetsPop` | queue_broker.go:64-66 | `k` gets from a queue holding at least `k` messages return its first `k` messages, oldest first. They leave the remaining messages. |
| `BrokerRuns.Fifo` | queue_broker.go:42-66 | The case of one block: after puts that fit, as many gets as the queue holds return its earlier contents and then the new messages, in put order. Nothing is lost or repeated, and the queue is left empty. |
| `BrokerRuns.PutOnlyAppends` | queue_broker.go:38-51 | A put changes the queue `name` only if it targets that queue and is accepted, and then only by appending its message at the tail. |
| `BrokerRuns.GetOnlyPops` | queue_broker.go:55-68 | A get changes the queue `name` only if it targets that queue and gets a message. It then removes exactly the head, which is the message it returns. |
| `BrokerRuns.StepFifo` | queue_broker.go:34-70 | For any single call and any queue `name`: the message it takes from `name`, followed by what the queue then holds, equals what the queue held before, followed by the message it adds. |
| `BrokerRuns.FifoAnyRun` | queue_broker.go:34-70 | For any sequence of puts and gets, interleaved in any way and across any names: the messages delivered from `name`, followed by what `name` still holds, equal what it held at the start, followed by every message accepted into it, in put order. No message is lost, duplicated or delivered out of order. |
| `BrokerRuns.PutBeyondCapacity` | queue_broker.go:46-51 | Once puts have filled a queue to `maxQueueSize`, the next put to it fails with "queue is full". The queue's contents are left unchanged. |

## Left out

- The HTTP front end (`QueueHandler`, `handlePut`, `handleGet`, queue_broker.go:73-143) is not part of this model. It does request routing, JSON decoding and encoding, timeout parsing and the status-code mapping. These are I/O and library calls.
- `main` (queue_broker.go:145-179) is not part of this model. It does argument parsing and starts the HTTP server.
- The mutex and concurrent callers are not modelled. Every call is atomic. The source releases the lock before a get waits (queue_broker.go:56-58), so in the source a put can land during that wait. With capacity 0, a put can then hand its message straight to a waiting get. The sequential model does not capture either case.
- Broker.QueueBroker.GetMessage: the `timeout` argument is not used. An empty queue answers "not found" at once instead of after the wait. With a timeout of zero or less, Go's `select` may choose the expired timer over a ready message (queue_broker.go:64-68). The model always returns the head of a non-empty queue.
- Broker.QueueBroker.constructor: takes `maxQueueSize` as an unbounded `nat`. `NewQueueBroker` accepts any size. But `make` (queue_broker.go:43) panics with "makechan: size out of range" on the first put to a new name when the size is negative. It also panics when the size is too large to allocate; on a 64-bit build that is roughly above 2^44 elements. Neither panic is modelled: for those sizes `BrokerSpec.Put` answers `PutOk` or `QueueFull` where the source panics.
- `defaultTimeout` is stored, but only the front end reads it. The model keeps it as an unused setting.
