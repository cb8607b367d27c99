# faststream configuration and consumption core, in Dafny

This project models how faststream turns subscriber and publisher configuration into
behaviour, for its Kafka (`aiokafka`), Confluent Kafka, RabbitMQ, Redis and NATS backends:

- **Factories.** The deprecated `auto_commit` and `no_ack` flags are checked against
  `ack_policy` and mapped onto an acknowledgement policy. The Confluent subscriber factory
  moves ACK_FIRST into the consumer's `enable_auto_commit`. Each factory chooses among the
  default, batch and concurrent variants. The Kafka publisher factory rejects a key on a
  batch publisher. The Redis publisher factory dispatches between channel, stream and list.
- **Subscriber lifecycles and consumption loops.** This covers the Kafka, Confluent, Redis
  list and core NATS subscribers:
  - `start`/`close`, and the pull-style `get_one` and iterators, which are refused while
    handlers are registered;
  - the fetch loop with its `connected` flag and its fixed five-second back-off;
  - batch flattening, and topic and partition prefixing.
- **Publish commands.** The Confluent publishers build commands from caller values and
  publisher defaults.
- **Schema values.** `RabbitExchange`, `StreamSub` and `ListSub`, including the cached
  `records` property.

The sentinel `EMPTY` (argument not passed) is `Option.None`. A Python `assert` or `raise` is
an error result (`Failure` or `SetupError`), never a precondition.

Broker clients are replaced by the sequence of outcomes their calls produce:
- A fetch loop receives the list of fetch results it sees while `running` holds. The end of
  that list is `running` turning false.
- A polling `get_one` receives the pops that complete before its timeout.
- The Redis server's list is a sequence of byte strings.

Sleeps are counted, never timed. `gen_cor_id` is a `freshId` parameter. Message parsing and
middlewares are treated as the identity.

Objects that the source updates in place are classes: the subscribers, the publishers,
`ListSub`, NATS subscriptions, and the Confluent `connection_data` dictionary, which the
factory mutates and the subscriber then shares. Everything else is a datatype. Each loop
method is proved equal to a recursive specification function, and the properties of the
source are lemmas about those functions.

One module per source file: `ConfluentFactory`, `RabbitFactory`, `KafkaPublisherFactory`,
`KafkaSubscriber`, `ConfluentSubscriber`, `RedisListSubscriber`, `ConfluentPublisher`,
`RedisPublisher`, `RabbitExchangeSchema`, `RedisStreamSub`, `RedisListSub`,
`NatsCoreSubscriber`. Two more modules hold shared pieces: `Base` (Option/Result,
`AckPolicy`, error kinds and Python truthiness) and `Text` (join, decimal rendering,
prefixing).

## Model

| member | source | states |
|---|---|---|
| ConfluentFactory.ValidateInput | faststream/confluent/subscriber/factory.py:205-242 | raises exactly when `auto_commit` comes with `ack_policy`, or `no_ack` comes with `ack_policy` or `auto_commit`, with the matching error; the max-workers guard never raises |
| ConfluentFactory.AcceptedFlagsAreExclusive | faststream/confluent/subscriber/factory.py:211-237 | accepted input sets at most one of `ack_policy`, `auto_commit`, `no_ack` |
| ConfluentFactory.ResolvePolicy | faststream/confluent/subscriber/factory.py:148-155 | `no_ack=True` gives DO_NOTHING, `no_ack=False` leaves it unset, `auto_commit` True/False gives ACK_FIRST/REJECT_ON_ERROR, else `ack_policy`; unset defaults to ACK_FIRST |
| ConfluentFactory.StoredPolicy | faststream/confluent/subscriber/factory.py:157-159 | the stored policy is never ACK_FIRST; other policies are kept |
| ConfluentFactory.ChooseVariant | faststream/confluent/subscriber/factory.py:184-202 | batch whatever `max_workers` is; otherwise concurrent exactly when `max_workers > 1`; otherwise default |
| ConfluentFactory.CreateSubscriber | faststream/confluent/subscriber/factory.py:112-202 | a validation error builds nothing and leaves `connection_data` alone; otherwise a fresh subscriber with the stored policy and chosen variant, sharing the caller's `connection_data`, which gains `enable_auto_commit=True` exactly when the resolved policy is ACK_FIRST; its parser is always manual |
| RabbitFactory.ValidateInput | faststream/rabbit/subscriber/factory.py:81-95 | raises exactly when `no_ack` and `ack_policy` are both given; `no_ack` alone only warns |
| RabbitFactory.CreateSubscriber | faststream/rabbit/subscriber/factory.py:30-77 | error exactly as validation; otherwise `ack_policy` and `no_ack` reach the base configs unchanged and both config objects carry the same queue and exchange |
| KafkaPublisherFactory.CreatePublisher | faststream/kafka/publisher/factory.py:91-141 | error exactly for a batch publisher with a non-empty key; the batch variant exactly when `batch`; key, topic, partition, headers, reply-to and middlewares copied unchanged |
| KafkaSubscriber.StopIndex | faststream/kafka/subscriber/usecase.py:184-185 | the position of the first `ConsumerStoppedError`, or the length when there is none |
| KafkaSubscriber.DeliveredIffFetched | faststream/kafka/subscriber/usecase.py:187-192 | a message reaches `consume_one` exactly when it is truthy and was fetched |
| KafkaSubscriber.RunAppend | faststream/kafka/subscriber/usecase.py:174-192 | over two fetch sequences in a row, deliveries concatenate in fetch order and back-offs and empty-batch waits add up |
| KafkaSubscriber.FailuresOnly | faststream/kafka/subscriber/usecase.py:179-182 | k failed fetches give k sleeps, no delivery and no empty-batch wait |
| KafkaSubscriber.EmptyWaits | faststream/kafka/subscriber/usecase.py:321-323 | the number of `batch_timeout_ms` sleeps is at most the number of fetches |
| KafkaSubscriber.BatchFetch | faststream/kafka/subscriber/usecase.py:313-325 | the loop sees a wait exactly when `getmany` returned no partition, and otherwise the flattened tuple without a wait, even when it is empty |
| KafkaSubscriber.WaitsOnlyOnNoPartitions | faststream/kafka/subscriber/usecase.py:316-323 | over a run of `getmany` results, the waits are exactly the results with no partition; a result of empty partition lists never waits |
| KafkaSubscriber.EmptyBatchesOnlyWait | faststream/kafka/subscriber/usecase.py:313-323 | k fetches whose `getmany` returned no partition give k `batch_timeout_ms` waits, no back-off, no delivery, and the loop stays connected and running |
| KafkaSubscriber.RecoversAfterFailures | faststream/kafka/subscriber/usecase.py:179-192 | after k failures, one successful fetch restores `connected` and delivers the message |
| KafkaSubscriber.StopEndsLoop | faststream/kafka/subscriber/usecase.py:184-185 | nothing fetched after a `ConsumerStoppedError` has any effect |
| KafkaSubscriber.FlattenAppend | faststream/kafka/subscriber/usecase.py:325 | flattening distributes over concatenation |
| KafkaSubscriber.FlattenMembers | faststream/kafka/subscriber/usecase.py:325 | a record is in the flattened batch exactly when it is in some partition's list |
| KafkaSubscriber.FlattenLength | faststream/kafka/subscriber/usecase.py:325 | the batch holds as many records as all partitions together |
| KafkaSubscriber.BatchGetMsg | faststream/kafka/subscriber/usecase.py:313-325 | sleeps exactly when the fetch is empty, and returns all records in partition order |
| KafkaSubscriber.TopicNames | faststream/kafka/subscriber/usecase.py:197-203 | the pattern alone if set, else the topics, else `topic-partition` names |
| KafkaSubscriber.PrefixPartitions | faststream/kafka/subscriber/usecase.py:220-226 | every partition topic prefixed, partition numbers unchanged |
| KafkaSubscriber.PrefixPartitionsLaws | faststream/kafka/subscriber/usecase.py:217-226 | an empty prefix changes nothing; prefix `a` then `b` is prefix `b + a` |
| KafkaSubscriber.TopicNamesAfterPrefix | faststream/kafka/subscriber/usecase.py:197-226 | after `add_prefix` the reported names are the prefixed names; a pattern is never prefixed |
| KafkaSubscriber.BuildLogContext | faststream/kafka/subscriber/usecase.py:205-215 | keys `topic`, `group_id` (empty when unset), `message_id` |
| KafkaSubscriber.LogicSubscriber.constructor | faststream/kafka/subscriber/usecase.py:229-251 | messages are ackable exactly when the policy is not ACK_FIRST |
| KafkaSubscriber.LogicSubscriber.Setup | faststream/kafka/subscriber/usecase.py:65-86 | stores the client id and a consumer builder; nothing else changes |
| KafkaSubscriber.LogicSubscriber.Start | faststream/kafka/subscriber/usecase.py:88-114 | refused before setup; subscribes by topics/pattern if either is set, else assigns partitions; the consume task only with handlers; the concurrent variant adds its worker pool |
| KafkaSubscriber.LogicSubscriber.Close | faststream/kafka/subscriber/usecase.py:116-121 | the consumer is dropped and the tasks are stopped |
| KafkaSubscriber.LogicSubscriber.GetOne | faststream/kafka/subscriber/usecase.py:124-153 | refused without a consumer or with handlers; `None` on an empty fetch; the single record otherwise; an unpacking error for any other shape |
| KafkaSubscriber.LogicSubscriber.Consume | faststream/kafka/subscriber/usecase.py:170-195 | refused without a consumer; otherwise equals the specification run up to the first stop: deliveries to the handler or the worker queue, `sleep(5)` back-offs, `batch_timeout_ms` waits of the batch `get_msg`, `connected`, and whether it stopped |
| KafkaSubscriber.LogicSubscriber.AddPrefix | faststream/kafka/subscriber/usecase.py:217-226 | topics and partition topics prefixed |
| KafkaSubscriber.LogicSubscriber.GetLogContext | faststream/kafka/subscriber/usecase.py:257-340 | the message's topic, or the joined topic names when there is no message |
| ConfluentSubscriber.DeliveredIffFetched | faststream/confluent/subscriber/usecase.py:169-174 | a message reaches `consume_one` exactly when it was fetched (not `None`) |
| ConfluentSubscriber.DeliveredAppend | faststream/confluent/subscriber/usecase.py:161-174 | the output over a concatenation is the concatenation of outputs, in order |
| ConfluentSubscriber.BackoffsAppend | faststream/confluent/subscriber/usecase.py:164-167 | back-offs add up over concatenated fetch sequences |
| ConfluentSubscriber.FailuresOnly | faststream/confluent/subscriber/usecase.py:164-167 | k `KafkaException`s give k sleeps, no delivery, and a disconnected state for k > 0 |
| ConfluentSubscriber.RecoversAfterFailures | faststream/confluent/subscriber/usecase.py:164-174 | after k failures, one successful fetch restores `connected` and delivers the message |
| ConfluentSubscriber.BatchGetMsg | faststream/confluent/subscriber/usecase.py:268-276 | `None` exactly when `getmany` returned nothing, else all messages |
| ConfluentSubscriber.TopicNames | faststream/confluent/subscriber/usecase.py:176-180 | the topics if any, else `topic-partition` names; no pattern case |
| ConfluentSubscriber.PrefixPartitions | faststream/confluent/subscriber/usecase.py:197-206 | partition topics prefixed; partition, offset, metadata and leader epoch kept |
| ConfluentSubscriber.PrefixPartitionsLaws | faststream/confluent/subscriber/usecase.py:194-206 | an empty prefix changes nothing; prefix `a` then `b` is prefix `b + a` |
| ConfluentSubscriber.TopicNamesAfterPrefix | faststream/confluent/subscriber/usecase.py:176-206 | after `add_prefix` the reported names are the prefixed names |
| ConfluentSubscriber.BuildLogContext | faststream/confluent/subscriber/usecase.py:183-192 | keys `topic`, `group_id` (empty when unset), `message_id` |
| ConfluentSubscriber.LogicSubscriber.constructor | faststream/confluent/subscriber/usecase.py:209-219 | the parser is manual exactly when the policy is not ACK_FIRST |
| ConfluentSubscriber.LogicSubscriber.Setup | faststream/confluent/subscriber/usecase.py:65-86 | stores the client id and a consumer builder |
| ConfluentSubscriber.LogicSubscriber.Start | faststream/confluent/subscriber/usecase.py:89-106 | refused before setup; the consumer gets the topics, partitions, group, client id and `connection_data`; the consume task only with handlers |
| ConfluentSubscriber.LogicSubscriber.Close | faststream/confluent/subscriber/usecase.py:108-113 | the consumer is dropped and the tasks are stopped |
| ConfluentSubscriber.LogicSubscriber.GetOne | faststream/confluent/subscriber/usecase.py:116-137 | refused without a consumer or with handlers; otherwise the fetched message or `None` |
| ConfluentSubscriber.LogicSubscriber.Consume | faststream/confluent/subscriber/usecase.py:150-174 | refused without a consumer; otherwise equals the specification run: no terminal branch, every exception backs off |
| ConfluentSubscriber.LogicSubscriber.AddPrefix | faststream/confluent/subscriber/usecase.py:194-206 | topics and partition topics prefixed, other partition fields kept |
| ConfluentSubscriber.LogicSubscriber.GetLogContext | faststream/confluent/subscriber/usecase.py:225-291 | the message's topic when truthy, else the joined topics (default variant) or the joined topic names (batch variant) |
| RedisListSubscriber.ListSubscriber.constructor | faststream/redis/subscriber/usecases/list_subscriber.py:167-206 | the configured policy is replaced by DO_NOTHING |
| RedisListSubscriber.ListSubscriber.Start | faststream/redis/subscriber/usecases/list_subscriber.py:71-78 | with tasks present nothing new starts (except another worker pool for the concurrent variant); otherwise refused without a client, and the consume task only with handlers |
| RedisListSubscriber.ListSubscriber.GetOne | faststream/redis/subscriber/usecases/list_subscriber.py:80-119 | refused without a client or with handlers; one sleep per empty pop; `None` when nothing, or an empty byte string, was popped; else a "list" message on the list's name |
| RedisListSubscriber.PollWindow | faststream/redis/subscriber/usecases/list_subscriber.py:133-137 | `raw_message` after one polling window: the first popped item, `None`, or unchanged when no pop completed |
| RedisListSubscriber.ListSubscriber.Iterate | faststream/redis/subscriber/usecases/list_subscriber.py:121-159 | yields, per window, the popped item when it is a non-empty byte string (intended behaviour; see Findings) |
| RedisListSubscriber.YieldedIffPopped | faststream/redis/subscriber/usecases/list_subscriber.py:132-159 | a message is yielded exactly when some window popped it and it is non-empty |
| RedisListSubscriber.ListSubscriber.IterateAsWritten | faststream/redis/subscriber/usecases/list_subscriber.py:121-159 | the iterator as written, with `raw_message` carried across windows |
| RedisListSubscriber.AsWrittenAgreesWhenEveryWindowPops | faststream/redis/subscriber/usecases/list_subscriber.py:130-139 | the written iterator agrees with the intended one whenever every window completes a pop |
| RedisListSubscriber.StaleMessageYieldedTwice | faststream/redis/subscriber/usecases/list_subscriber.py:130-139 | a window with no completed pop yields the previous message again |
| RedisListSubscriber.GetMsgs | faststream/redis/subscriber/usecases/list_subscriber.py:177-248 | at most one message per call, on the list's name |
| RedisListSubscriber.GetMsgsTakesFromHead | faststream/redis/subscriber/usecases/list_subscriber.py:177-248 | items are taken from the head, none lost or duplicated; plain: one "list" message or none, no sleep; batch: one "blist" message of at most `max_records` items, sleeping exactly when empty; concurrent: queued, not consumed |
| RedisListSubscriber.ListSubscriber.AddPrefix | faststream/redis/subscriber/usecases/list_subscriber.py:161-164 | a fresh copy renamed `prefix + name` replaces the old `ListSub`, which is unchanged; other fields kept |
| ConfluentPublisher.Merge | faststream/confluent/publisher/usecase.py:100 | every key of either map; the override wins where both have one |
| ConfluentPublisher.CorrelationId | faststream/confluent/publisher/usecase.py:101 | a new id only when none is supplied |
| ConfluentPublisher.LogicPublisher.constructor | faststream/confluent/publisher/usecase.py:30-40 | missing headers become `{}`; only the default publisher has a key |
| ConfluentPublisher.LogicPublisher.AddPrefix | faststream/confluent/publisher/usecase.py:42-43 | the topic becomes `prefix + topic` |
| ConfluentPublisher.LogicPublisher.PublishOne | faststream/confluent/publisher/usecase.py:80-106 | falsy topic, key, partition (0 included) and reply-to fall back to the defaults; caller headers win |
| ConfluentPublisher.LogicPublisher.PublishBatch | faststream/confluent/publisher/usecase.py:153-178 | the same fallbacks for several messages, and never a key |
| ConfluentPublisher.LogicPublisher.RequestOne | faststream/confluent/publisher/usecase.py:45-71 | a REQUEST command carrying the timeout; the default publisher falls back to its own key |
| ConfluentPublisher.LogicPublisher.FlowCommand | faststream/confluent/publisher/usecase.py:108-196 | the destination is always the publisher's topic; command headers win; reply-to, partition and (default only) key filled only when falsy |
| ConfluentPublisher.LogicPublisher.PublishInFlow | faststream/confluent/publisher/usecase.py:108-125 | the field-by-field update gives `FlowCommand` |
| ConfluentPublisher.LogicPublisher.FlowCommandIdempotent | faststream/confluent/publisher/usecase.py:118-123 | filling in the defaults twice is filling them in once |
| ConfluentPublisher.LogicPublisher.FlowAfterPublish | faststream/confluent/publisher/usecase.py:94-123 | a command built by `publish` only changes destination in the subscriber flow |
| RedisPublisher.Create | faststream/redis/publisher/publisher.py:59-136 | channel, then stream, then list (batch list gives the batch publisher); none gives `IncorrectSetup`; common arguments forwarded unchanged |
| RedisPublisher.GetName | faststream/redis/publisher/publisher.py:140-175 | the target's name followed by ":Publisher" |
| RedisPublisher.Binding | faststream/redis/publisher/publisher.py:143-182 | the target's name with "publish", "rpush" or "xadd" |
| RedisPublisher.CreatedPublisherNamedAfterTarget | faststream/redis/publisher/publisher.py:77-182 | the created publisher is named after and bound to the option that won |
| RabbitExchangeSchema.NewExchange | faststream/rabbit/schemas/exchange.py:48-153 | a given `passive` overrides `declare` with `not passive`; otherwise `declare` as given; other fields stored |
| RabbitExchangeSchema.Named | faststream/rabbit/schemas/exchange.py:50-117 | the defaults: DIRECT, not durable, no auto-delete, robust, empty routing key |
| RabbitExchangeSchema.Routing | faststream/rabbit/schemas/exchange.py:43-46 | the routing key when non-empty, else the name |
| RabbitExchangeSchema.HashIgnoresOtherFields | faststream/rabbit/schemas/exchange.py:32-41 | equal name, type, routing key, durable and auto-delete give equal hashes |
| RabbitExchangeSchema.Validate | faststream/rabbit/schemas/exchange.py:155-165 | `None` gives the default exchange with an empty name |
| RedisStreamSub.NewStreamSub | faststream/redis/schemas/stream_sub.py:24-58 | error exactly when one of `group`/`consumer` is truthy; `last_id` defaults to "$"; other fields stored as given |
| RedisStreamSub.NoAckWithGroupOnlyWarns | faststream/redis/schemas/stream_sub.py:39-44 | `no_ack` with a group only warns and is stored |
| RedisStreamSub.DefaultsAccepted | faststream/redis/schemas/stream_sub.py:24-35 | the defaults are accepted: polling interval 100, "$", no batch, no `no_ack` |
| RedisListSub.ListSub.constructor | faststream/redis/schemas/list_sub.py:18-29 | every argument stored; nothing cached |
| RedisListSub.ListSub.WithDefaults | faststream/redis/schemas/list_sub.py:18-23 | `batch` False, `max_records` 10, polling interval 0.1 |
| RedisListSub.ListSub.Records | faststream/redis/schemas/list_sub.py:31-33 | `max_records` when batch, else `None`, computed on first read and cached |
| RedisListSub.CachedRecords | faststream/redis/schemas/list_sub.py:31-33 | later changes to `batch`/`max_records` do not change `records` once read |
| NatsCoreSubscriber.CoreSubscriber.constructor | faststream/nats/subscriber/usecases/core_subscriber.py:31-46 | `is_ack_disabled` exactly when the policy is not DO_NOTHING |
| NatsCoreSubscriber.CoreSubscriber.GetOne | faststream/nats/subscriber/usecases/core_subscriber.py:48-82 | refused with handlers; the fetch subscription is created once and reused; `None` on timeout |
| NatsCoreSubscriber.CoreSubscriber.Iterate | faststream/nats/subscriber/usecases/core_subscriber.py:84-110 | refused with handlers; yields every arrived message in order, on the shared fetch subscription |
| NatsCoreSubscriber.CoreSubscriber.CreateSubscription | faststream/nats/subscriber/usecases/core_subscriber.py:112-153 | nothing when a subscription exists; otherwise one fresh subscription, with `consume` or (concurrent, after starting its worker pool) `_put_msg` as callback |
| NatsCoreSubscriber.GetOneTwice | faststream/nats/subscriber/usecases/core_subscriber.py:58-65 | two `get_one` calls share one pull-style fetch subscription |
| NatsCoreSubscriber.CreateSubscriptionTwice | faststream/nats/subscriber/usecases/core_subscriber.py:114-153 | a repeated call subscribes once and starts at most one worker pool |

## Left out

- I/O and timing. Brokers, sockets, sleeps, timeouts and `anyio` cancellation are not modelled. Each becomes the sequence of outcomes it produces, and sleeps are counted.
- Concurrency. The worker pool of the concurrent variants is one `WorkerPool` task, and `_put_msg` is an output queue. Scheduling is not modelled.
- Message processing. `process_msg`, parsers, decoders and middlewares are not part of this model. The raw message stands for the processed one.
- Base classes. The base `start`/`close` of `SubscriberUsecase`, `TasksMixin` and the Redis and NATS `basic.py` are not part of this model. Start is taken to set `running` and close to clear it and the tasks.
- Redis start. The Redis base start is taken to add the consume task only when handlers are registered, as the Kafka and Confluent subscribers do.
- Kafka `compile_path`. The pattern rewriting in the Kafka subscriber constructors is not modelled, and the pattern is stored as given.
- Rebalance listener and `_make_response_publisher`. Neither is modelled.
- Specification arguments. AsyncAPI titles, descriptions and schemas are not modelled, and neither is `get_schema`.
- Redis `validate_options` and the `validate` methods of `PubSub`, `ListSub` and `StreamSub`. These are not part of this model. `RedisPublisher.Create` receives each option already validated, as `None` or a value.
- NameProxy. Prefix handling inside `NameProxy` is not part of this model, and names are plain strings.
- Log context of Redis and NATS. `get_log_context` of the Redis and NATS subscribers is not modelled, because their `build_log_context` is not part of this model.
- `KafkaPublishCommand`. Its constructor defaults and `from_cmd` are not part of this model. A request is taken to have an empty reply-to and `no_confirm` false. `add_headers(override=False)` is taken to add only missing keys.
- RabbitExchangeSchema.Validate: the base `validate` of the name proxy is not part of this model; it is taken to build `RabbitExchange(name)` from a string and to return an exchange unchanged. Only the `None` branch is modelled from the source itself.
- Python hashing. `RabbitExchangeSchema.Hash` takes the string and type hashes as parameters.
- Redis `LPOP` count. A count below one is taken to pop nothing.
- Order of the concurrent NATS subscription. The model does not record that the worker pool starts before the subscribe call, only that both happen.
- RedisListSubscriber.GetMsgs: `blpop` is modelled as returning the head of the list when it is non-empty. Items pushed during the blocking wait are not modelled.

## Findings

| source | as written | input that shows it | evidently intended | confidence | as-written member | corrected member |
|---|---|---|---|---|---|---|
| faststream/redis/subscriber/usecases/list_subscriber.py:130-140 | `raw_message` is set to `None` once, before the outer `while True`, and is reassigned only when an `lpop` completes | one window pops item `m`; in the next window the five-second deadline expires while the first `lpop` is in flight, so `raw_message` still holds `m` and `m` is yielded a second time | each window starts with `raw_message = None`, so a window in which nothing was popped yields nothing | not executed | RedisListSubscriber.StaleMessageYieldedTwice | RedisListSubscriber.ListSubscriber.Iterate |
