# cq3 queue abstraction — a Dafny model

cq3 puts one interface in front of several message-queue systems. A client
holds a queue object built for one backend. It sends through `producer.send`
(or `enqueue`). It fetches through `consumer.dequeue` (or `dequeue`) and
acknowledges through `consumer.remove` (or `remove`). It can also hand
`consumer.connect` a queue name and a handler, which starts a push loop. That
loop fetches batches and hands each message to the handler. It removes the
message only after the handler succeeded.

This project models that core:

- `common.dfy`: the shared values. These are JSON-shaped messages and
  options, JavaScript truthiness, promise outcomes (`Result`), the option
  merge every backend performs (`Object.assign`), and the message codec that
  stands for `JSON.stringify`/`JSON.parse`.
- `cloud_queue.dfy`: the base class. It has the facade objects and aliases,
  the routing of each call to one overridable hook, and the base defaults:
  length 0, deleteQueue and disconnect succeed, everything else throws.
- `delivery.dfy`: the push-loop discipline the backends share, as traces. A
  batch is handed to the handler in order, and a message is acknowledged
  exactly when its handler succeeded. A failure is logged and does not stop
  the loop.
- `redis_q.dfy`: the key-value-store backend, over one keyspace of string
  and list keys. It has key naming, send, fetch (a pop loop and a read loop),
  length and the push loop. It proves FIFO order and that a consistent
  queue stays consistent.
- `sqs.dfy`: the hosted-queue backend. It has the queue-URL cache,
  send/fetch/remove/length/delete by URL, result shaping and the push loop.
- `rabbit_mq.dfy`: the broker backend. It has queue declaration at most once
  per name, confirm and plain channels, backpressure, get,
  acknowledgements, length, deletion and the consume callback.
- `kafka_q.dfy`: the log backend. It has the lazily built and never rebuilt
  partition hash ring, message construction, the consumer-connect argument
  shuffle, and the batch handler with offset commits.
- `rmon.dfy`: the rate monitor. It has an accumulator, a window of at most
  BLEN buckets filled by a once-a-second tick, and the average over the
  window.

Remote systems are modelled as state the model keeps, or as parameters:

- The Redis keyspace is state.
- The queue URLs SQS knows are state, and so are the queues a RabbitMQ
  broker has and the arguments each was declared with.
- What a receive, a get or a queue-attributes request returns is a
  parameter. So are whether an acknowledgement, deletion or commit goes
  through, whether a RabbitMQ broker confirmed every publish, and the hash
  ring's lookup.
- Message ids (`shortid`) and URLs of newly created SQS queues are passed in.

Some behaviours of the code can surprise a reader, and the model states
them:

- Redis message keys and list keys share one keyspace, and the two naming
  schemes can collide (`RedisQ.KeysCanCollide`).
- A Redis fetch deletes the popped message keys before it parses the
  bodies. When one body does not parse, the whole fetched batch is gone
  from the store, and the push loop ends (`RedisQ.RedisQ.Dequeue`,
  `RedisQ.RedisQ.ConsumerConnect`).
- The SQS URL cache is never evicted. A deleted queue keeps answering with
  its old URL, so later sends and fetches on it fail (`SQS.StaleUrlAfterDelete`).
  Only the RabbitMQ backend forgets a deleted queue; the SQS cache keeps
  the entry.
- A RabbitMQ producer without confirms has a plain channel. That channel has
  no `waitForConfirms`, so `disconnect` fails. On a confirm channel it fails
  when the broker nacked an outstanding publish (`RabbitMQ.RabbitMQ.ProducerDisconnect`).
- The Kafka backend overwrites the `producer` facade object only when the
  producer connects. A send before that goes through the facade to
  `_enqueue` with no message and fails (`KafkaQ.KafkaQ.Enqueue`).
- The facade's `consumer.connect` passes two arguments. So the Kafka
  three-argument form, which sets `groupId`, is reachable only by calling
  the hook directly.

## Model

| member | source | states |
|---|---|---|
| CloudQueue.Route | CloudQueue.js:22-79 | each facade member and alias reaches exactly one hook, with its arguments unchanged; send and enqueue reach the enqueue hook, the two dequeues the dequeue hook, the two removes the remove hook |
| CloudQueue.AliasesAgree | CloudQueue.js:37-47 | on every backend and state, `enqueue`, `dequeue` and `remove` give the same reply and state as `producer.send`, `consumer.dequeue` and `consumer.remove` |
| CloudQueue.SafeDefaults | CloudQueue.js:81-98 | a backend that does not override length reports 0; one that does not override deleteQueue or disconnect succeeds; none of them changes backend state |
| CloudQueue.MissingHooksThrow | CloudQueue.js:92-114 | any other hook left alone throws: dequeue and remove say they are not implemented, connect and send that subclasses must override |
| CloudQueue.Base | CloudQueue.js:81-114 | the base hooks: length resolves with 0, deleteQueue and disconnect resolve with nothing, dequeue and remove throw "not implemented", the connects and send throw "must override" |
| CloudQueue.OverrideIsLocal | CloudQueue.js:37-79 | a backend overriding one more hook changes only the facade calls routed to that hook; every other call gives the same reply and state as before |
| Common.Assign | RedisQ.js:27 | the merged options have every key of both objects, and the configured value wins on a shared key |
| Common.Bound | RedisQ.js:109-110 | a counting loop bound by a positive numeric option runs that many times, and runs none exactly when the option is missing, not a number, or not positive |
| Common.OrZero | SQS.js:116-122 | a reply field that is present and truthy is returned as is, otherwise 0 |
| Delivery.Deliver | SQS.js:39-48 | the reference loop over a batch: one handled event per message and one acknowledgement event per message whose handler succeeded |
| Delivery.DeliverAppend | SQS.js:37-49 | the reference loop over two batches in turn is the loop over their concatenation |
| Delivery.DeliverBatch | RedisQ.js:64-73 | the loop over a fetched batch produces a trace that delivers the batch: every message handled once, in order, and acknowledged exactly when its handler succeeded |
| Delivery.DeliverDelivered | RedisQ.js:64-73 | handling a batch with any handler and acknowledgement outcomes delivers it |
| Delivery.FailureDoesNotBlock | SQS.js:39-48 | in a delivery, a message after one whose handler failed is still handed to the handler |
| Delivery.DeliveredAppend | SQS.js:37-49 | delivering batches one after the other delivers their concatenation |
| Delivery.StepDelivered | RabbitMQ.js:92-100 | one message handled and acknowledged after a success delivers that message |
| RedisQ.QKeyInjective | RedisQ.js:10-12 | different queues have different list keys |
| RedisQ.MKeyIsNotQKey | RedisQ.js:14-16 | a message key is non-empty and never its own queue's list key |
| RedisQ.KeysCanCollide | RedisQ.js:10-16 | the message key of queue "a", id "b" is the list key of queue "a_b", and message keys of different queues coincide |
| RedisQ.PopLoop | RedisQ.js:109-114 | the pop loop keeps the ids popped so far, adds at most its bound of further ids, and never adds an empty one |
| RedisQ.ReadLoop | RedisQ.js:119-125 | the read-and-delete loop, when it succeeds, keeps the bodies read so far and adds exactly one per id |
| RedisQ.FetchRun | RedisQ.js:105-127 | a fetch never returns more messages than its batch bound |
| RedisQ.Parse | RedisQ.js:126 | the fetch succeeds exactly when every body (a missing one read as "null") parses, and then returns one delivery per body, each the body's parse |
| RedisQ.PopLoopFifo | RedisQ.js:109-114 | on a consistent queue, the pop loop takes the oldest `min(n, size)` ids in age order and leaves the rest of the list |
| RedisQ.ReadLoopReadsAll | RedisQ.js:119-125 | reading distinct stored ids returns their bodies in order and deletes exactly those keys |
| RedisQ.PoppedIds | RedisQ.js:110-114 | the popped ids are distinct, still stored after the pop, and hold the oldest bodies |
| RedisQ.RestIntact | RedisQ.js:119-125 | after the popped ids are read and deleted, the rest of the queue is intact and consistent |
| RedisQ.FetchFifo | RedisQ.js:105-127 | a fetch from a consistent queue returns the parse of the oldest `min(max, size)` bodies, deletes their keys, and leaves the remaining bodies in order, still consistent |
| RedisQ.SendFifo | RedisQ.js:92-98 | storing a body under an unused key and pushing that key appends the body at the young end and keeps the queue consistent |
| RedisQ.ParseEncoded | RedisQ.js:126 | bodies written by a round-tripping codec parse back to the messages, in order |
| RedisQ.DrainedStep | RedisQ.js:61-80 | one more fetched batch of the next bodies extends what the push loop has drained, in order |
| RedisQ.FetchParses | RedisQ.js:126 | a fetch of bodies that all parse succeeds |
| RedisQ.FacadeDefaults | CloudQueue.js:87-98 | through the facade, deleting a queue and disconnecting succeed and change nothing on this backend |
| RedisQ.RedisQ.constructor | RedisQ.js:20-28 | options are the defaults (wait 5 s, batch of 5) overridden by the configuration |
| RedisQ.RedisQ.Enqueue | RedisQ.js:84-103 | the body is stored under the message key, then the key is pushed on the list; expiries are issued after each write when `expire` is set; a WRONGTYPE failure stops the chain; on a consistent queue, the message is appended at the young end |
| RedisQ.RedisQ.Dequeue | RedisQ.js:105-127 | the result and store are those of the pop, read and parse run with the configured batch bound (the caller's `max` is ignored); on a consistent queue, it returns the oldest messages in order and leaves the rest |
| RedisQ.RedisQ.Remove | RedisQ.js:129-132 | removal always succeeds |
| RedisQ.RedisQ.Length | RedisQ.js:134-140 | length is LLEN of the list key, and on a consistent queue the number of pending messages |
| RedisQ.RedisQ.PopIds | RedisQ.js:109-114 | the pop loop run against the store gives the result and the store of the pop loop's definition: up to the batch bound of ids, oldest first, stopping when the list runs empty or a command fails |
| RedisQ.RedisQ.ReadBodies | RedisQ.js:119-125 | the read-and-delete loop gives the bodies of the popped ids in order, deleting each key after its read, and stops at the first failure |
| RedisQ.RedisQ.Round | RedisQ.js:61-80 | one round of the push loop: its result and the new store are exactly those of one fetch from the old store, and the trace is the reference loop over the fetched batch; on a consistent queue it keeps the queue consistent, extends what has been drained by the next oldest bodies, and fails only when some body does not parse |
| RedisQ.RedisQ.PushLoop | RedisQ.js:61-80 | the loop's batches, the failure that ends it and the final store are exactly the push run from the starting store, and all batches are delivered in order |
| RedisQ.RedisQ.PushStep | RedisQ.js:61-80 | one round of the push loop, measured against the push run of the rounds still to go: a failed fetch is where that run ends, with that failure and the store left behind; a successful fetch is that run's next batch, delivered in order, and the rest of the run continues from the new store |
| RedisQ.RedisQ.ConsumerConnect | RedisQ.js:56-82 | without a queue, nothing is fetched and the store is unchanged; with one, the batches, the stopping failure and the final store are those of the push run, every batch is delivered, and on a consistent queue the messages delivered are the oldest ones in send order and the loop is never stopped by a failure when all bodies parse |
| RedisQ.PushRun | RedisQ.js:61-80 | the push loop's fetches chained store to store: it ends early exactly at the first failed fetch, with that failure and the store it left, and otherwise runs every round |
| RedisQ.PushRunFifo | RedisQ.js:61-80 | on a consistent queue, the push run keeps the queue consistent, its batches are the oldest bodies in order, parsed, and it never stops early when every body parses |
| SQS.Resolve | SQS.js:52-63 | a truthy cached URL is returned without a request; otherwise the looked-up URL, or a newly created queue's URL, is returned and cached; no other entry changes |
| SQS.AssertOnce | SQS.js:53 | once a queue is asserted under a non-empty URL, asserting it again returns that URL and changes nothing, even without a client |
| SQS.StaleUrlAfterDelete | SQS.js:125-129 | after an asserted queue is deleted, asserting it again returns the deleted URL, which the service no longer knows |
| SQS.Decode | SQS.js:87-92 | parsing a reply succeeds exactly when every body parses, and keeps order and receipt handles |
| SQS.Shape | SQS.js:86-92 | a reply with no messages, or an empty list, gives no deliveries; otherwise one per message |
| SQS.ShapeEncoded | SQS.js:86-92 | messages sent through a round-tripping codec are fetched as sent, each with its receipt handle |
| SQS.SQS.constructor | SQS.js:7-20 | options are the defaults (visibility 30, wait 5, batch of 1, all attributes, awaited removal) overridden by the configuration; the URL cache starts empty |
| SQS.SQS.AssertQueue | SQS.js:52-63 | returns, caches and creates as the queue-assertion function says |
| SQS.SQS.Enqueue | SQS.js:65-73 | asserts the queue, then sends the serialised message to its URL; a URL the service does not know fails |
| SQS.SQS.Dequeue | SQS.js:75-93 | asserts the queue; the batch size is the caller's `max` when truthy, else the configured one; attributes, visibility and wait come from the options; the result is the shaped reply |
| SQS.SQS.Remove | SQS.js:95-107 | a deletion by receipt handle is requested at the queue's URL; with `asyncRemove` it succeeds whatever the service says; without a consumer client it fails |
| SQS.SQS.Length | SQS.js:109-123 | the approximate count when present and truthy, otherwise 0 |
| SQS.SQS.DeleteQueue | SQS.js:125-129 | the queue at the (possibly cached) URL is deleted, and the cache entry stays |
| SQS.SQS.HandleOne | SQS.js:40-47 | after a handler success, a deletion by the message's receipt handle is requested at the queue's resolved URL, the cache and service become those of the resolution, and removal counts as done under `asyncRemove` or when the service accepts; after a failure nothing changes |
| SQS.SQS.HandleBatch | SQS.js:39-48 | the trace is the reference loop over the batch; the deletions requested are those of the messages whose handler succeeded, in order, all at the queue's resolved URL; the cache and service are unchanged when nothing succeeded and those of the resolution otherwise |
| SQS.SQS.Round | SQS.js:38-48 | a round resolves the queue, fetches the shaped reply (failing when the service does not know the URL) and runs the reference loop over it; the deletions are those of the successes, and a failed fetch deletes nothing |
| SQS.SQS.PushLoop | SQS.js:37-49 | the rounds stop at the first failed fetch; the trace is the reference loop over all fetched batches in order, and the deletions are those of every success, at the resolved URL |
| SQS.SQS.ConsumerConnect | SQS.js:32-50 | without a queue, nothing happens; with one, each round's batch is the shaped reply, all batches are delivered in order, and exactly the successfully handled messages are deleted, by receipt handle at the queue's resolved URL |
| SQS.ReceiptsOfDeletions | SQS.js:44 | the receipt handles of the deletions requested for some handles are those handles, in order |
| SQS.FacadeDefaults | CloudQueue.js:94-98 | through the facade, disconnecting resolves with nothing and changes nothing, while length and queue deletion reach this backend's own hooks |
| RabbitMQ.QueueArgs | RabbitMQ.js:110-116 | a queue is declared durable, plus exactly those of messageTtl, expires and autoDelete that the configuration gives (not null or undefined) |
| RabbitMQ.QosArgs | RabbitMQ.js:85-86 | the prefetch count and global flag are read from `qos`, each undefined exactly when `qos` is not an object or lacks that property |
| RabbitMQ.FacadeDelegates | CloudQueue.js:49-79 | this backend overrides every hook, disconnect included, so every facade call reaches its own hook |
| RabbitMQ.GetResult | RabbitMQ.js:161-172 | no message gives an empty result; a message gives one delivery, its handle being the raw message, and fails when its content does not parse |
| RabbitMQ.GetEncoded | RabbitMQ.js:166-171 | a message published through a round-tripping codec is fetched as that message |
| RabbitMQ.RabbitMQ.constructor | RabbitMQ.js:10-19 | options are the defaults (confirm channel, acknowledgements) overridden by the configuration; no queue is asserted |
| RabbitMQ.RabbitMQ.BuildQueueArgs | RabbitMQ.js:110-116 | the loop over the three optional arguments builds the declaration arguments |
| RabbitMQ.Declare | RabbitMQ.js:108-122 | the broker refuses a declaration exactly when it has the queue under a different one; otherwise it has the queue afterwards, every queue it had kept as it was, and a new queue under the arguments given |
| RabbitMQ.FalsyAutoDeleteIsDefault | RabbitMQ.js:110-118 | a queue the broker has as plain durable is the one declared by a configuration without messageTtl or expires exactly when its autoDelete is absent or falsy |
| RabbitMQ.RabbitMQ.AssertQueue | RabbitMQ.js:108-122 | an asserted queue is not declared again; otherwise it is declared as the broker answers, and remembered only on success; a queue the broker has under a different declaration (flags compared by truthiness, other arguments by value) fails |
| RabbitMQ.RabbitMQ.ProducerConnect | RabbitMQ.js:33-57 | the channel is a confirm channel exactly when `producerConfirm` is set |
| RabbitMQ.RabbitMQ.Enqueue | RabbitMQ.js:134-152 | without a producer channel it opens one (a confirm channel exactly when `producerConfirm` is set); it asserts the queue as queue assertion says and writes the message only when that succeeds; it waits for drain exactly when confirms are off and the write was not accepted |
| RabbitMQ.RabbitMQ.ProducerDisconnect | RabbitMQ.js:59-61 | succeeds exactly on a confirm channel whose outstanding publishes were all confirmed; a nacked publish fails it, and without a confirm channel it fails with a TypeError |
| RabbitMQ.RabbitMQ.ConnectConsumer | RabbitMQ.js:63-87 | the consumer channel is opened, with the prefetch from `qos` when configured |
| RabbitMQ.RabbitMQ.ConsumerConnect | RabbitMQ.js:63-106 | always resolves, reconnecting the consumer with the prefetch from `qos`; with a queue, the queue is asserted as queue assertion says, and a consumer (without acknowledgement under `autoAck`) is registered only if that succeeded |
| RabbitMQ.RabbitMQ.Dequeue | RabbitMQ.js:154-173 | connects the consumer (with the prefetch from `qos`) only when not connected; the queue is asserted as queue assertion says; after a successful assertion, the result is the get's result, at most one message, and otherwise the assertion's failure; the get is without acknowledgement exactly under `autoAck` |
| RabbitMQ.RabbitMQ.Remove | RabbitMQ.js:175-185 | under `autoAck` nothing is done; otherwise the raw message is acknowledged, and without a consumer channel removal fails |
| RabbitMQ.RabbitMQ.Length | RabbitMQ.js:187-196 | connects the consumer (with the prefetch from `qos`) only when not connected; an unknown queue fails; otherwise the count when present and truthy, else 0 |
| RabbitMQ.RabbitMQ.DeleteQueue | RabbitMQ.js:198-209 | connects the consumer (with the prefetch from `qos`) only when not connected; an unknown queue fails and stays remembered; otherwise it is deleted (unless its name is empty) and forgotten as asserted |
| RabbitMQ.RabbitMQ.OnMessage | RabbitMQ.js:92-100 | a message that parses is delivered; it is acknowledged exactly when its handler succeeded, `autoAck` is off and there is a consumer channel, and its removal counts as done when no acknowledgement is needed or the acknowledgement goes through; one that does not parse never reaches the handler |
| KafkaQ.FacadeDefaults | CloudQueue.js:81-110 | through the facade, this backend cannot fetch or remove, reports length 0, and deletes and disconnects as no-ops |
| KafkaQ.NatToString | KafkaQ.js:18 | a partition id's string is decimal digits without leading zeros |
| KafkaQ.Number | KafkaQ.js:21 | the empty string reads as 0 and a string with a non-digit as NaN |
| KafkaQ.NumberOfNatToString | KafkaQ.js:18-21 | reading back a partition id's string gives the id |
| KafkaQ.Ids | KafkaQ.js:18 | the ring's nodes are the partition ids as strings, in order |
| KafkaQ.RingNodesArePartitions | KafkaQ.js:16-22 | any node of a ring reads back as one of the partitions the ring was built from |
| KafkaQ.Partitioner.constructor | KafkaQ.js:12-14 | a partitioner starts without a ring |
| KafkaQ.Partitioner.Partition | KafkaQ.js:16-22 | the ring is built from the first call's partitions and kept for every later call; the result is the ring's answer as a number, and one of the ring's partitions whenever the answer is a node |
| KafkaQ.KeyName | KafkaQ.js:43 | the key field names a property as JavaScript converts it: a string as itself, a missing key field "undefined", null "null", a boolean "true" or "false", and a number its decimal form, with a minus sign when negative |
| KafkaQ.BuildMessage | KafkaQ.js:42-45 | the outgoing message's key is the message's key-field property (undefined when absent) and its value the serialised message; a null message fails |
| KafkaQ.SentValueRoundTrips | KafkaQ.js:44 | the sent value parses back to the message |
| KafkaQ.ParsedCount | KafkaQ.js:61-63 | the batch handler gets through exactly the leading messages that parse, and stops at the first one that does not |
| KafkaQ.Deliveries | KafkaQ.js:62-63 | each handled message's handle is its topic, partition and offset |
| KafkaQ.KafkaQ.constructor | KafkaQ.js:25-31 | options are the connection settings overridden by the configured options; the producer is still the facade object |
| KafkaQ.KafkaQ.ProducerConnect | KafkaQ.js:33-39 | the producer becomes a client built from the options, with a fresh partitioner that has no ring |
| KafkaQ.KafkaQ.Enqueue | KafkaQ.js:41-47 | before the producer connects, a send fails with a TypeError; after, the built message is sent to the queue's topic |
| KafkaQ.KafkaQ.ConsumerConnect | KafkaQ.js:49-83 | with three arguments the second overrides `groupId`, with two it is the handler; a group consumer subscribed to the queue starts, and the call resolves at once |
| KafkaQ.KafkaQ.DataHandler | KafkaQ.js:60-70 | the leading messages that parse are delivered in order, and the offset of each whose handler succeeded is committed; the batch fails exactly when a message does not parse |
| RMon.TickOf | lib/rmon.js:27-30 | a tick appends the accumulated value; the window, when within its length, stays within it; when full, the oldest bucket is dropped |
| RMon.WindowKeepsLatest | lib/rmon.js:26-31 | after any number of ticks, the window holds exactly the latest BLEN values |
| RMon.SumBounds | lib/rmon.js:18-21 | bounds on the buckets bound their sum, so the average lies between them |
| RMon.RMon.constructor | lib/rmon.js:4-9 | the window length is the one given, or 60 when none or 0 is given; the window and accumulator start empty |
| RMon.RMon.Add | lib/rmon.js:11-13 | the accumulator grows by the value and the window is unchanged |
| RMon.RMon.Tick | lib/rmon.js:27-30 | the accumulator moves into the window and is reset to 0; the window stays within its length |
| RMon.RMon.Ave | lib/rmon.js:15-22 | the average is 0 for an empty window, otherwise the sum of the buckets over their count |
| RMon.RMon.Start | lib/rmon.js:24-32 | a timer is running afterwards, any earlier one stopped |
| RMon.RMon.Stop | lib/rmon.js:34-37 | no timer is running afterwards |
| RMon.RMon.Clear | lib/rmon.js:39-44 | the window and the accumulator are empty, and the timer is restarted |

## Left out

- Connections and clients: connection setup and its failures, reconnects,
  and connection and channel event listeners are left out. This includes
  RabbitMQ's `process.exit(1)` on channel close and the reset of a channel to
  null on a channel error. A client is a flag, set by the connect step.
- Timers: the wait after an empty Redis or RabbitMQ fetch is left out. The
  rate monitor's `setInterval` is a `running` flag, and its tick is a method
  of its own.
- RedisQ.RedisQ.ConsumerConnect: the push loop has no exit of its own. The
  model cuts it off after a given number of rounds.
- SQS.SQS.ConsumerConnect: the push loop runs once per given receive reply.
- Concurrency is left out:
  - The Redis and RabbitMQ loops do not await their removals, and the model
    runs those removals in sequence.
  - With SQS `asyncRemove`, a deletion is not awaited; the model records the
    request and succeeds.
  - Under prefetch, the RabbitMQ consume callback can run for several
    messages at once; the model runs one message per call.
  - A Kafka group consumer can run several batch handlers at once.
- Redis key expiry: an EXPIRE is recorded as issued, but keys never expire in
  the model.
- JSON: serialising and parsing are an abstract codec. Lemmas that need
  parsing to invert serialising take that as a hypothesis.
- Numbers: JSON numbers are integers. The rate monitor's floating-point
  division and `toFixed(2)` formatting are represented by the sum and the
  count they are computed from.
- Common.Bound: JavaScript coerces a string or boolean option in `i < max`.
  The model treats a non-number as allowing no iterations.
- KafkaQ.Number: only decimal-digit strings are read as numbers. Every other
  string is NaN in the model, though JavaScript also accepts signs,
  exponents and hexadecimal. Only ring nodes, which are partition ids, reach
  it.
- KafkaQ.KeyName: a key field that is an array or an object gives an
  undefined key. JavaScript would use its string conversion.
- SQS.Cached, SQS.Resolve, RabbitMQ.RabbitMQ.AssertQueue and KafkaQ.KeyName
  (with KafkaQ.BuildMessage): names inherited from `Object.prototype`
  (`constructor`, `toString`, `__proto__` and the like) are treated as
  absent keys. In JavaScript, a queue or key field with such a name reads
  the inherited value from the URL cache, the asserted-queues object or the
  message.
- Delivery.Delivered, and the push loops that produce it
  (RedisQ.RedisQ.ConsumerConnect, SQS.SQS.ConsumerConnect,
  RabbitMQ.RabbitMQ.OnMessage, KafkaQ.KafkaQ.DataHandler): the message
  handler is a pure function of the message. Equal messages, redeliveries
  included, always get the same outcome, while a JavaScript handler may
  answer differently on each call.
- KafkaQ.BuildMessage: reading the key property of a boolean, number, string
  or array message gives undefined. JavaScript would find string indices
  and `length`.
- The Kafka backend replaces the `producer` and `consumer` facade objects
  when it connects. After that, the facade's members are the client
  libraries' own methods, which the model does not cover.
- The fixed `metadata` field of a Kafka commit handle and SQS's
  `DelaySeconds: 0` are not represented.
- RabbitMQ.RabbitMQ.Valid: the broker is taken never to drop a queue on
  its own (through `autoDelete` or `expires`), so every queue remembered as
  asserted stays one the broker knows.
- RabbitMQ.RabbitMQ.ProducerDisconnect and KafkaQ.KafkaQ.Enqueue: a call
  that throws synchronously is rendered as a rejected result. In JavaScript,
  `disconnect` without a confirm channel, and a Kafka send before the
  producer connects or with a null message, throw out of the facade call
  instead of returning a rejected promise.
- SQS.Resolve: creating a queue is taken to succeed, so asserting a queue
  that is not cached fails only without a client. The service can reject
  `createQueue` (for instance shortly after a queue of that name was
  deleted, or for lack of permission), and that rejection would fail the
  send, fetch, length, deleteQueue or push round that asserted the queue.
  Likewise an SQS `sendMessage` to a URL the service knows, and a Kafka
  `producer.send`, are taken to succeed.
- Remote behaviour is taken as given, not modelled. This covers what a
  receive, get, queue-attributes or check-queue request returns, whether an
  acknowledgement, deletion or commit is accepted, whether published
  messages were confirmed, and the hash ring's lookup.
- Logging: logger selection and log output are left out. A failure that the
  source logs appears in the trace as a failed event.
- `index.js` is not part of this model. It chooses a backend class by
  module name.
- The command-line benchmark and test scripts are not part of this model.
