# Kafka pub/sub driver of a load generator, in Dafny

This project models the Kafka driver of a publish/subscribe load generator
(`src/pubsub/kafka.rs`) and proves properties of that model. The driver does
four things:

- **Client configuration.** It builds the key/value settings handed to the
  Kafka client library: a shared base (bootstrap servers, socket and message
  timeouts in milliseconds, Nagle off, optional TLS material), extended for a
  producer (acks, compression, optional batching knobs, exactly-once
  delivery) or for a consumer (group, client id, auto-commit and
  end-of-partition events off, offset reset, optional fetch size). An admin
  client gets the base alone.
- **Topic provisioning.** Every topic declared by a `Topics` workload
  component is created with the component's partition count and replication
  factor 1. A topic that already exists is checked against the broker's
  metadata. Every other failure is fatal and names the topic. The model
  returns `Ok` or `Fatal(topic, reason)` where the program exits the process.
- **Publishers.** `publisherPoolsize` producers are created. Each is shared by
  `publisherConcurrency` tasks. A task takes work items from a channel, sends
  each as a record, and counts requests, publishes, successes, failures and
  latency samples.
- **Subscribers.** For each `Topics` component there is one consumer per pool
  slot. Its consumer group is `rpcperf_subscriber_<slot>`, or
  `rpcperf_subscriber_0` for every slot when a single group is requested.
  `subscriberConcurrency` receive tasks share each consumer. A task subscribes
  once, then hands each well-formed payload to the message validator and
  counts each broken delivery as a receive error.

Modules:

- `Text` covers the comma join and decimal formatting used in the settings,
  with their inverses.
- `Settings` holds the configuration records.
- `ClientFactory` holds the configuration builders. A setting name is a
  constructor of `Key`; `Name` gives the library's property string.
- `TopicProvisioner` models topic creation and validation.
- `Metrics` holds the counters as a value record.
- `PublisherPool` and `SubscriberPool` model the pools and their tasks.

The broker is abstracted:

- its answers to a creation request and a metadata fetch are functions;
- a subscription's outcome is a function of the topic list;
- what a task receives is a finite sequence of events. The end of that
  sequence is the moment the task sees the run flag cleared.

The builders and tasks are methods that update a map or counter record step
by step, as the source does. Each is proved equal to a declarative
specification (per-key tables, counter functions), and the lemmas state what
those specifications promise.

## Model

| member | source | states |
|---|---|---|
| Text.Decimal | src/pubsub/kafka.rs:13-14 | the formatted number is a non-empty digit string, with a leading `0` only for zero |
| Text.ParseDecimalOfDecimal | src/pubsub/kafka.rs:13-14 | reading the formatted milliseconds back as a decimal gives the number formatted |
| Text.Join | src/pubsub/kafka.rs:11 | the joined endpoint list starts with the first endpoint, followed by the separator when there is a second; the empty list joins to the empty string (`SplitJoin` is its inverse) |
| Text.SplitJoin | src/pubsub/kafka.rs:11 | splitting the comma-joined endpoint list at commas gives the list back, provided no endpoint contains a comma |
| Settings.AsMillis | src/pubsub/kafka.rs:13-14 | a duration's whole milliseconds: `ms * 10^6 <= ns < (ms + 1) * 10^6` |
| ClientFactory.NameInjective | src/pubsub/kafka.rs:16-83 | distinct settings are set under distinct property names, so the key-indexed model map is the name-indexed library configuration |
| ClientFactory.GetClientConfig | src/pubsub/kafka.rs:10-38 | the built settings are exactly the base table: the four fixed keys, then the TLS keys, each present exactly when its value is supplied |
| ClientFactory.GetKafkaAdmin | src/pubsub/kafka.rs:87-89 | the admin client's settings are exactly the base table |
| ClientFactory.GetKafkaProducer | src/pubsub/kafka.rs:41-67 | the producer settings are exactly the producer table: the base settings plus acks, compression, optional knobs and exactly-once keys |
| ClientFactory.GetKafkaConsumer | src/pubsub/kafka.rs:69-85 | the consumer settings are exactly the consumer table for the given group |
| ClientFactory.SetTls | src/pubsub/kafka.rs:21-37 | the TLS step completes the base table's TLS keys: all six set as the table says when TLS material is given, none otherwise |
| ClientFactory.SetExactlyOnce | src/pubsub/kafka.rs:61-64 | the exactly-once step sets idempotence and the in-flight limit exactly when exactly-once delivery is requested |
| ClientFactory.BaseSettings | src/pubsub/kafka.rs:11-20 | the bootstrap servers are the comma-joined endpoints and Nagle is disabled; both timeouts are digit strings whose values are the durations in whole milliseconds |
| ClientFactory.NoTlsNoSecurityKeys | src/pubsub/kafka.rs:21-37 | without a TLS section, no `security.*` or `ssl.*` setting appears |
| ClientFactory.TlsSettings | src/pubsub/kafka.rs:21-37 | with TLS, the protocol is `ssl` and certificate verification is off; the CA, certificate and key locations are each present iff supplied; the key password is present iff both key and password are supplied |
| ClientFactory.OverridesKeepBase | src/pubsub/kafka.rs:41-85 | no producer or consumer setting overrides a base setting |
| ClientFactory.ProducerSettings | src/pubsub/kafka.rs:44-64 | acks and compression are always set; linger, batch size, batch count and request timeout are each present iff supplied; idempotence `true` and one in-flight request are present iff exactly-once is requested |
| ClientFactory.ConsumerSettings | src/pubsub/kafka.rs:72-83 | the group is the one given; the client id is `rpcperf_subscriber`; auto-commit and partition-EOF events are off; offset reset is as configured; fetch size is present iff supplied |
| ClientFactory.ProducerConfigUnique | src/pubsub/kafka.rs:41-67 | the producer table determines the settings completely: two maps meeting it are equal |
| ClientFactory.ConsumerConfigUnique | src/pubsub/kafka.rs:69-85 | the consumer table determines the settings completely for a given group |
| ClientFactory.BootstrapServersRecoverable | src/pubsub/kafka.rs:11-17 | the endpoint list can be read back from `bootstrap.servers` |
| TopicProvisioner.AsI32 | src/pubsub/kafka.rs:122 | the partition count sent is the count cast to i32: in the i32 range, congruent modulo 2^32, and unchanged below 2^31 |
| TopicProvisioner.ValidateTopic | src/pubsub/kafka.rs:91-111 | an existing topic passes iff metadata was fetched, is non-empty and its first topic has the declared partition count; a failure names the topic |
| TopicProvisioner.ResultStatus | src/pubsub/kafka.rs:129-141 | one result entry passes iff the topic was created, or already existed and validates; a failure names the declared topic |
| TopicProvisioner.ResultsStatus | src/pubsub/kafka.rs:126-143 | the result entries of a creation response pass iff each was created, or already existed and validates; a failure names the declared topic |
| TopicProvisioner.TopicStatus | src/pubsub/kafka.rs:119-148 | a declared topic passes iff the admin client answered and every result entry passes |
| TopicProvisioner.RequestsDeclare | src/pubsub/kafka.rs:118-124 | each declared topic's request names the topic, asks for replication factor 1, and carries the partition count as an `i32`: in range, congruent to the count mod 2^32, and equal to it when it fits |
| TopicProvisioner.CreateTopics | src/pubsub/kafka.rs:113-153 | the status and the requests sent are those of the provisioning specification over all declared topics of all `Topics` components, in order |
| TopicProvisioner.CreateComponentTopics | src/pubsub/kafka.rs:116-150 | the same for one component's topics, stopping at the first fatal one |
| TopicProvisioner.CreateTopic | src/pubsub/kafka.rs:119-148 | one topic's creation request is the cast request with replication factor 1, and its verdict is that topic's status |
| TopicProvisioner.HandleResults | src/pubsub/kafka.rs:126-143 | handling the result entries in order gives the result-list verdict |
| TopicProvisioner.ProvisionAppend | src/pubsub/kafka.rs:115-152 | provisioning two runs of topics is provisioning the first, then the second only if the first ended `Ok` |
| TopicProvisioner.ProvisionOk | src/pubsub/kafka.rs:113-153 | provisioning succeeds iff every declared topic passes, and then exactly one request per topic was sent |
| TopicProvisioner.ProvisionFatal | src/pubsub/kafka.rs:113-153 | a fatal outcome is the first failing topic's verdict; every earlier topic passed and no later topic was requested |
| TopicProvisioner.FatalNamesDeclaredTopic | src/pubsub/kafka.rs:133-147 | a fatal outcome names a declared topic |
| TopicProvisioner.ExistingTopicScenario | src/pubsub/kafka.rs:131-133 | a new topic is created; an existing topic with the declared partition count passes; a count mismatch is fatal and reports both counts |
| PublisherPool.Served | src/pubsub/kafka.rs:256-260 | the number of items a task takes before the channel closes: all earlier steps are receipts, and the next step, if any, is the close |
| PublisherPool.PublisherTask | src/pubsub/kafka.rs:250-307 | the task sends one record per item taken (topic, key, payload) and exits with a channel error iff the channel closed; the counters are those of the publishing specification |
| PublisherPool.DeliveredPlusFailed | src/pubsub/kafka.rs:291-301 | every send taken is counted once, as either a success or a failure |
| PublisherPool.OneSamplePerSuccess | src/pubsub/kafka.rs:292-296 | exactly one latency sample is recorded per successful send |
| PublisherPool.PublishDeltas | src/pubsub/kafka.rs:254-304 | requests and publishes both grow by the number of items taken, which successes plus failures equal; latency samples grow by the successes; the publisher gauge rises by one iff the channel closed |
| PublisherPool.AllFailuresNoSamples | src/pubsub/kafka.rs:297-304 | when every send fails and the run ends normally, all items count as failures, no sample is recorded and the gauge is back where it was |
| PublisherPool.NoSuccesses | src/pubsub/kafka.rs:291-300 | with every send failing, nothing counts as delivered and no latency is sampled |
| PublisherPool.LaunchPublishers | src/pubsub/kafka.rs:235-248 | one producer with the producer settings per pool slot; exactly `publisherConcurrency` tasks per producer (`poolsize * concurrency` in all); one connect count per producer |
| PublisherPool.SpawnTasks | src/pubsub/kafka.rs:244-246 | one slot's tasks: exactly `publisherConcurrency` more tasks on that producer, none added to earlier producers |
| SubscriberPool.GroupIdFor | src/pubsub/kafka.rs:169-177 | the group is `rpcperf_subscriber_` followed by digits: `rpcperf_subscriber_0` under the single-group flag, otherwise the digits read back as the slot, with no leading zero |
| SubscriberPool.GroupIdsDistinct | src/pubsub/kafka.rs:169-177 | with the single-group flag every slot shares one group; without it distinct slots get distinct groups |
| SubscriberPool.SubscriberTask | src/pubsub/kafka.rs:193-232 | on a successful subscription the task validates each well-formed payload in order and counts the subscription and each receive error; on failure it counts only the attempt and the failure |
| SubscriberPool.ErrorsPlusPayloads | src/pubsub/kafka.rs:203-225 | each delivery is either validated or counted once as a receive error |
| SubscriberPool.FailedSubscriptionCounts | src/pubsub/kafka.rs:228-231 | a failed subscription changes only the attempt and failure counters |
| SubscriberPool.WellFormedChangesNoCounter | src/pubsub/kafka.rs:205-207 | a run of well-formed payloads validates all of them and counts no receive error |
| SubscriberPool.CopyTopics | src/pubsub/kafka.rs:181-184 | each task's topic list is a copy of the component's |
| SubscriberPool.LaunchSubscribers | src/pubsub/kafka.rs:156-191 | one consumer per slot of each `Topics` component, in order, each configured with its slot's group; exactly `subscriberConcurrency` tasks per consumer, each with its component's topics |
| SubscriberPool.LaunchComponent | src/pubsub/kafka.rs:162-188 | one component's slots are appended in order, with their consumers and tasks |
| SubscriberPool.LaunchSlot | src/pubsub/kafka.rs:166-187 | one slot adds one consumer and `subscriberConcurrency` tasks sharing it |
| SubscriberPool.SpawnReceivers | src/pubsub/kafka.rs:180-187 | `subscriberConcurrency` tasks on the new consumer, each with the component's topics, and none added to earlier consumers |

## Left out

- Creating the library clients (`create().unwrap()`) and every network call are not modelled. A configuration is the settings map, and the broker's answers are inputs.
- The panic on a missing `pubsub` configuration section is not modelled: the model's `Config` always has one.
- `validate_topic` fetches metadata through a consumer of its own, in group `topic_validator`, with a 10-second timeout. That consumer is not modelled; metadata is a function of the topic name. A failed fetch, which panics in the program, is `Fatal(MetadataFetchFailed)`.
- Error messages written to standard error, and the process exit itself, are not modelled: a fatal outcome is the `Fatal` status.
- Tokio runtimes, `spawn`, `Arc` sharing and concurrency among tasks are not modelled. A task runs on its own counter record, and the pools return which consumer or producer each task shares.
- The global `RUNNING` flag is not modelled: a task's input sequence ends where the flag is found cleared.
- Clocks are not modelled. A send's latency is an input, and the `as u64` truncation of nanoseconds is not modelled.
- PublisherPool.PublisherTask: every latency sample is recorded. The histogram's own rejection of a value, which the program ignores, is not modelled.
- The message validator's checks are not modelled. `SubscriberTask` returns the payloads it hands over.
- Logging is not modelled.
- The textual forms of the acks, compression and offset-reset settings are taken as strings.
- The broker's answer to a creation request depends only on the request. A topic declared twice with the same partition count therefore gets the same creation answer both times, where a real broker answers the second request with `TopicAlreadyExists` and sends the topic to validation.
- Metric counters are unbounded integers. Wrap-around of the underlying counters is not modelled.
